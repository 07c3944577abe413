/** The sending task as one sequential body, and its agreement with the machine of `Sending`. */
module SenderTask {
  import opened Basics
  import opened Chunking
  import opened Framing
  import opened Handshake
  import opened Model
  import opened PinCheck
  import opened PinRefinement
  import opened Protocol
  import opened FileLoop
  import opened SenderRecord
  import S = Sending
  import Token

  /** A file as the application queues it, with the buffers it supplies until it closes the file. */
  datatype RTCFile = RTCFile(id: string, parts: seq<bytes>)

  /** Everything the task will be given: messages up to the end of the channel, PINs the user enters, and files until
      the application closes its queue. */
  datatype Inputs = Inputs(msgs: seq<Message>, entries: seq<string>, queue: seq<RTCFile>)

  /** The chunks that leave a buffer as parts are added to it, and what is left. */
  function Fed(buffer: bytes, parts: seq<bytes>): (seq<bytes>, bytes)
    decreases |parts|
  {
    if parts == [] then ([], buffer)
    else
      var (full, rest) := Drain(buffer + parts[0]);
      var (more, last) := Fed(rest, parts[1..]);
      (full + more, last)
  }

  /** The machine's steps for the parts of a file. */
  function Stream(c: Config, t: S.Task, parts: seq<bytes>): S.Step
    requires t.stage.Streaming?
    decreases |parts|
  {
    if parts == [] then S.OnAction(c, t, S.Eof)
    else
      var step := S.OnAction(c, t, S.Data(parts[0]));
      var last := Stream(c, step.task, parts[1..]);
      S.Step(last.task, step.out + last.out)
  }

  /** The machine's steps for one queued file. */
  function Ship(c: Config, t: S.Task, file: RTCFile): S.Step
    requires t.stage.NextFile?
  {
    var step := S.OnAction(c, t, S.Queue(file.id));
    if file.id !in t.tokens then step
    else
      var last := Stream(c, step.task, file.parts);
      S.Step(last.task, step.out + last.out)
  }

  /** The machine's next steps, if its inputs allow some. The end of the channel ends a chunked string, and it serves as
      the last message as well. */
  function Advance(c: Config, files: seq<FileDto>, t: S.Task, i: Inputs): Option<(S.Step, Inputs)> {
    match t.stage
    case AwaitSelection(buffer) =>
      if i.msgs == [] then Some((S.OnSelection(c, t, buffer), i))
      else Some((S.OnMessage(c, files, t, i.msgs[0]), i.(msgs := i.msgs[1..])))
    case AwaitLast => Some((t.End(Finished), if i.msgs == [] then i else i.(msgs := i.msgs[1..])))
    case EnterPin =>
      if i.entries == [] then None
      else Some((S.OnAction(c, t, S.Enter(i.entries[0])), i.(entries := i.entries[1..])))
    case NextFile =>
      if i.queue == [] then Some((S.OnAction(c, t, S.Close), i))
      else Some((Ship(c, t, i.queue[0]), i.(queue := i.queue[1..])))
    case Streaming(_) => None
    case Pairing => None
    case Ended(_) => None
    case _ =>
      if i.msgs == [] then None else Some((S.OnMessage(c, files, t, i.msgs[0]), i.(msgs := i.msgs[1..])))
  }

  function Size(i: Inputs): nat {
    |i.msgs| + |i.entries| + |i.queue|
  }

  function Urge(t: S.Task): nat {
    match t.stage
    case AwaitSelection(_) => 3
    case NextFile => 2
    case AwaitLast => 1
    case _ => 0
  }

  lemma AdvanceShrinks(c: Config, files: seq<FileDto>, t: S.Task, i: Inputs)
    ensures match Advance(c, files, t, i)
            case None => true
            case Some((step, i')) => Size(i') < Size(i) || (Size(i') == Size(i) && Urge(step.task) < Urge(t))
  {
    hide S.OnNonce, S.OnToken, S.OnPinReply, S.OnPin, Ship;
  }

  /** The machine run as far as its inputs go: where it ends up, what it sends, and what it leaves. */
  function Driven(c: Config, files: seq<FileDto>, t: S.Task, i: Inputs): (S.Step, Inputs)
    decreases Size(i), Urge(t)
  {
    match Advance(c, files, t, i)
    case None => (S.Step(t, []), i)
    case Some((step, i')) =>
      AdvanceShrinks(c, files, t, i);
      var (last, rest) := Driven(c, files, step.task, i');
      (S.Step(last.task, step.out + last.out), rest)
  }

  /** What has been sent, and a machine that goes on from here, lead to the outcome `whole`. */
  ghost predicate OnTrack(c: Config, files: seq<FileDto>, whole: (S.Step, Inputs), sent: seq<Message>,
                          t: S.Task, i: Inputs)
  {
    var (step, rest) := Driven(c, files, t, i);
    whole == (S.Step(step.task, sent + step.out), rest)
  }

  lemma Track(c: Config, files: seq<FileDto>, whole: (S.Step, Inputs), sent: seq<Message>, t: S.Task, i: Inputs)
    requires OnTrack(c, files, whole, sent, t, i)
    ensures match Advance(c, files, t, i)
            case None => whole == (S.Step(t, sent), i)
            case Some((step, i')) => OnTrack(c, files, whole, sent + step.out, step.task, i')
  {
    hide Advance;
    match Advance(c, files, t, i)
    case None => assert sent + [] == sent;
    case Some((step, i')) =>
      var (last, _) := Driven(c, files, step.task, i');
      assert sent + (step.out + last.out) == sent + step.out + last.out;
  }

  // ---- One file ---------------------------------------------------------------------------------

  lemma {:induction false} FedEmits(buffer: bytes, parts: seq<bytes>)
    requires |buffer| < CHUNK_SIZE
    ensures var (chunks, rest) := Fed(buffer, parts);
            Emitting(chunks, rest, buffer + Concat(parts)) && |rest| < CHUNK_SIZE
    decreases |parts|
  {
    hide Drain, Emitting;
    if parts == [] {
      NothingEmitted(buffer);
      assert buffer + Concat<byte>([]) == buffer;
    } else {
      var (full, rest) := Drain(buffer + parts[0]);
      DrainEmits(buffer + parts[0]);
      FedEmits(rest, parts[1..]);
      var (more, last) := Fed(rest, parts[1..]);
      EmittingJoin(full, rest, buffer + parts[0], more, last, Concat(parts[1..]));
      assert buffer + Concat(parts) == buffer + parts[0] + Concat(parts[1..]);
    }
  }

  lemma EmittingJoin(full: seq<bytes>, rest: bytes, data: bytes, more: seq<bytes>, last: bytes, later: bytes)
    requires Emitting(full, rest, data) && Emitting(more, last, rest + later)
    ensures Emitting(full + more, last, data + later)
  {
    hide Concat;
    ConcatAppend(full, more);
    var (a, b) := (Concat(full), Concat(more));
    assert a + b + last == a + (b + last) == a + (rest + later) == a + rest + later;
  }

  lemma {:induction false} StreamSends(c: Config, t: S.Task, parts: seq<bytes>)
    requires t.stage.Streaming? && |t.stage.buffer| < CHUNK_SIZE
    ensures var (chunks, rest) := Fed(t.stage.buffer, parts);
            && Stream(c, t, parts).out == Binaries(if rest == [] then chunks else chunks + [rest])
            && Stream(c, t, parts).task.stage.NextFile? && Stream(c, t, parts).task.tokens == t.tokens
            && Stream(c, t, parts).task.listed == t.listed
    decreases |parts|
  {
    hide Drain, S.Supply, S.Extend, Binaries, Emitting;
    if parts == [] {
      var rest := t.stage.buffer;
      assert Fed(rest, parts) == ([], rest) && [] + [rest] == [rest];
      SingleBinary(rest);
    } else {
      var (full, rest) := Drain(t.stage.buffer + parts[0]);
      DrainEmits(t.stage.buffer + parts[0]);
      var step := S.OnAction(c, t, S.Data(parts[0]));
      assert step.task.stage == S.Streaming(rest) && step.out == Binaries(full);
      StreamSends(c, step.task, parts[1..]);
      var (more, last) := Fed(rest, parts[1..]);
      BinariesJoin(full, if last == [] then more else more + [last]);
      assert full + (more + [last]) == full + more + [last];
    }
  }

  lemma SingleBinary(chunk: bytes)
    ensures Binaries([chunk]) == [Binary(chunk)] && Binaries([]) == []
  {
  }

  lemma BinariesJoin(a: seq<bytes>, b: seq<bytes>)
    ensures Binaries(a) + Binaries(b) == Binaries(a + b)
  {
  }

  /** For a file with a token: its header, and the canonical cut of its contents. */
  lemma ShipSends(c: Config, t: S.Task, file: RTCFile)
    requires t.stage.NextFile?
    ensures var step := Ship(c, t, file);
            && step.task.stage.NextFile? && step.task.tokens == t.tokens && step.task.listed == t.listed
            && step.out == if file.id !in t.tokens then []
                           else [Text(c.serde.header.encode(FileHeader(file.id, t.tokens[file.id])))]
                                + Binaries(Split(Concat(file.parts), CHUNK_SIZE))
  {
    if file.id in t.tokens {
      var step := S.OnAction(c, t, S.Queue(file.id));
      StreamSends(c, step.task, file.parts);
      FedEmits([], file.parts);
      var (chunks, rest) := Fed([], file.parts);
      assert [] + Concat(file.parts) == Concat(file.parts);
      EmittedLeads(chunks, rest, Concat(file.parts));
      assert chunks + [] == chunks;
    }
  }

  // ---- The parts of the task --------------------------------------------------------------------

  /** The challenge with our own PIN. */
  lemma {:induction false} TrackPins(c: Config, files: seq<FileDto>, whole: (S.Step, Inputs), sent: seq<Message>,
                                     t: S.Task, i: Inputs)
    requires OnTrack(c, files, whole, sent, t, i)
    ensures var (step, rest) := SenderFed(c, files, t, i.msgs);
            OnTrack(c, files, whole, sent + step.out, step.task, i.(msgs := rest))
    decreases |i.msgs|
  {
    hide OnTrack;
    if t.stage.AwaitPin? && i.msgs != [] {
      Track(c, files, whole, sent, t, i);
      var step := S.OnPin(c, files, t, t.stage.tries, i.msgs[0]);
      TrackPins(c, files, whole, sent + step.out, step.task, i.(msgs := i.msgs[1..]));
      var later := SenderFed(c, files, step.task, i.msgs[1..]).0;
      assert sent + step.out + later.out == sent + (step.out + later.out);
    } else {
      assert sent + [] == sent;
    }
  }

  /** The chunked answer to the file list. */
  lemma {:induction false} TrackSelection(c: Config, files: seq<FileDto>, whole: (S.Step, Inputs), sent: seq<Message>,
                                          t: S.Task, i: Inputs, buffer: bytes)
    requires t.stage == S.AwaitSelection(buffer) && OnTrack(c, files, whole, sent, t, i)
    ensures var (payload, rest) := TakeString(i.msgs);
            OnTrack(c, files, whole, sent, S.OnSelection(c, t, buffer + payload).task, i.(msgs := rest))
    decreases |i.msgs|
  {
    hide OnTrack;
    Track(c, files, whole, sent, t, i);
    assert sent + [] == sent && buffer + [] == buffer;
    SelectionSilent(c, t, buffer);
    if i.msgs != [] && !i.msgs[0].isString {
      var data := i.msgs[0].data;
      var next := t.(stage := S.AwaitSelection(buffer + data));
      TrackSelection(c, files, whole, sent, next, i.(msgs := i.msgs[1..]), buffer + data);
      var payload := TakeString(i.msgs[1..]).0;
      assert buffer + data + payload == buffer + (data + payload);
      SelectionAlike(c, t, next, buffer + data + payload);
    }
  }

  lemma SelectionSilent(c: Config, t: S.Task, buffer: bytes)
    ensures S.OnSelection(c, t, buffer).out == []
  {
  }

  /** What is made of the answer does not depend on how much of it had arrived before. */
  lemma SelectionAlike(c: Config, t: S.Task, t': S.Task, payload: bytes)
    requires t' == t.(stage := t'.stage)
    ensures S.OnSelection(c, t', payload) == S.OnSelection(c, t, payload)
  {
  }

  /** How the sender understands the reply to a PIN it submitted. */
  function ParseReply(c: Config): bytes -> ChallengeReply<()> {
    (b: bytes) =>
      match c.serde.pinReceiving.decode(b)
      case None => Unreadable
      case Some(PinOk) => Passed(())
      case Some(PinRequired) => TryAgain
      case Some(PinTooManyAttempts) => GiveUp
  }

  /** Where the answer to the peer's challenge leads the sender. */
  function AfterPins(c: Config, files: seq<FileDto>, t: S.Task, result: HandleResult<()>): S.Step {
    match result
    case Entered(_) => S.Challenge(c, files, t)
    case NoMoreAttempts => t.End(TooManyAttempts)
    case NoPin => t.Go(S.EnterPin)
    case ChannelClosed => t.Go(S.AwaitPinReply)
    case BadReply => t.End(ProtocolError)
  }

  /** One PIN entered, with the reply still to come. */
  lemma TrackEntry(c: Config, files: seq<FileDto>, whole: (S.Step, Inputs), sent: seq<Message>, t: S.Task, i: Inputs)
    requires t.stage.EnterPin? && i.entries != [] && OnTrack(c, files, whole, sent, t, i)
    ensures OnTrack(c, files, whole, sent + PinTexts(c.serde, i.entries[..1]),
                    t.(entered := t.entered + i.entries[..1], stage := S.AwaitPinReply), i.(entries := i.entries[1..]))
  {
    hide OnTrack;
    Track(c, files, whole, sent, t, i);
    var text := Text(c.serde.pin.encode(PinMessage(i.entries[0])));
    assert i.entries[..1] == [i.entries[0]] && PinTexts(c.serde, i.entries[..1]) == [text];
  }

  /** What the sender makes of the reply. */
  lemma ReplyRead(c: Config, files: seq<FileDto>, t: S.Task, msg: Message)
    ensures S.OnPinReply(c, files, t, msg) ==
            if !msg.isString then t.End(ProtocolError)
            else match ParseReply(c)(msg.data)
                 case Passed(_) => S.Challenge(c, files, t)
                 case TryAgain => t.Go(S.EnterPin)
                 case GiveUp => t.End(TooManyAttempts)
                 case Unreadable => t.End(ProtocolError)
  {
    hide S.Challenge;
  }

  lemma {:induction false} TrackEntries(c: Config, files: seq<FileDto>, whole: (S.Step, Inputs), sent: seq<Message>,
                                        t: S.Task, i: Inputs)
    requires t.stage.EnterPin? && OnTrack(c, files, whole, sent, t, i)
    ensures var (result, n, rest) := Handled(i.entries, i.msgs, false, ParseReply(c));
            && n <= |i.entries|
            && var step := AfterPins(c, files, t.(entered := t.entered + i.entries[..n]), result);
               OnTrack(c, files, whole, sent + PinTexts(c.serde, i.entries[..n]) + step.out, step.task,
                       i.(msgs := rest, entries := i.entries[n..]))
    decreases |i.entries|
  {
    hide OnTrack, PinTexts, S.Challenge, S.OnPinReply, ParseReply;
    var (result, n, rest) := Handled(i.entries, i.msgs, false, ParseReply(c));
    HandledBound(i.entries, i.msgs, false, ParseReply(c));
    var (pin, entries) := (if i.entries == [] then ([], []) else (i.entries[..1], i.entries[1..]));
    PinTextsJoin(c.serde, sent, pin, []);
    if i.entries == [] {
      assert t.entered + [] == t.entered && i.entries[n..] == i.entries;
    } else {
      TrackEntry(c, files, whole, sent, t, i);
      var t1 := t.(entered := t.entered + pin, stage := S.AwaitPinReply);
      var i1 := i.(entries := entries);
      var sent1 := sent + PinTexts(c.serde, pin);
      if i.msgs == [] {
        assert sent1 + [] == sent1;
      } else {
        Track(c, files, whole, sent1, t1, i1);
        var msg := i.msgs[0];
        ReplyRead(c, files, t1, msg);
        ChallengeAlike(c, files, t, t1);
        assert S.OnMessage(c, files, t1, msg) == S.OnPinReply(c, files, t1, msg);
        if msg.isString && ParseReply(c)(msg.data).TryAgain? {
          TrackEntries(c, files, whole, sent1 + [], t1.(stage := S.EnterPin), i1.(msgs := i.msgs[1..]));
          assert sent1 + [] == sent1;
          var m := Handled(entries, i.msgs[1..], false, ParseReply(c)).1;
          assert i.entries[..n] == pin + entries[..m] && entries[m..] == i.entries[n..];
          PinTextsJoin(c.serde, sent, pin, entries[..m]);
          assert t.entered + pin + entries[..m] == t.entered + (pin + entries[..m]);
        }
      }
    }
  }

  lemma ChallengeAlike(c: Config, files: seq<FileDto>, t: S.Task, t': S.Task)
    ensures t' == t.(stage := t'.stage, entered := t'.entered) ==>
              S.Challenge(c, files, t') == S.Challenge(c, files, t.(entered := t'.entered))
  {
  }

  // ---- The task itself --------------------------------------------------------------------------

  function Exit(stage: S.Stage): Option<Outcome> {
    match stage
    case Ended(outcome) => Some(outcome)
    case _ => None
  }

  /** The queued files that the receiver did not ask for. */
  function Unwanted(tokens: map<string, string>, queued: seq<S.Queued>): seq<string>
    decreases |queued|
  {
    if queued == [] then []
    else
      var n := |queued| - 1;
      Unwanted(tokens, queued[..n]) + (if queued[n].id in tokens then [] else [queued[n].id])
  }

  /** How the task ended, if it did, which files were asked for, and which could not be sent. */
  datatype Report = Report(outcome: Option<Outcome>, tokens: map<string, string>, failed: seq<string>)

  function ReportOf(t: S.Task): Report {
    Report(Exit(t.stage), t.tokens, Unwanted(t.tokens, t.queued))
  }

  function Ending(outcome: Option<Outcome>): Report {
    Report(outcome, map[], [])
  }

  predicate Untouched(t: S.Task) {
    t.tokens == map[] && t.queued == []
  }

  lemma {:induction false} StreamQueued(c: Config, t: S.Task, parts: seq<bytes>)
    requires t.stage.Streaming? && t.queued != []
    ensures var queued := Stream(c, t, parts).task.queued;
            && |queued| == |t.queued| && queued[..|queued| - 1] == t.queued[..|queued| - 1]
            && queued[|queued| - 1].id == t.queued[|queued| - 1].id
    decreases |parts|
  {
    hide Drain, S.Extend, Binaries;
    if parts != [] {
      StreamQueued(c, S.OnAction(c, t, S.Data(parts[0])).task, parts[1..]);
    }
  }

  /** A file is reported to the application exactly if it has no token. */
  lemma ShipReports(c: Config, t: S.Task, file: RTCFile)
    requires t.stage.NextFile?
    ensures Unwanted(t.tokens, Ship(c, t, file).task.queued)
         == Unwanted(t.tokens, t.queued) + (if file.id in t.tokens then [] else [file.id])
  {
    var step := S.OnAction(c, t, S.Queue(file.id));
    var n := |t.queued|;
    assert step.task.queued[..n] == t.queued;
    if file.id in t.tokens {
      StreamQueued(c, step.task, file.parts);
      assert Ship(c, t, file).task.queued[..n] == t.queued;
    }
  }

  /** One file with a token. */
  method SendFile(c: Config, token: string, file: RTCFile, tx: Sender<Message>, ghost t: S.Task)
    requires tx.limit.None? && t.stage.NextFile? && file.id in t.tokens && token == t.tokens[file.id]
    modifies tx
    ensures tx.sent == old(tx.sent) + Ship(c, t, file).out
  {
    hide Ship, Split, Binaries, Wrapped, Concat;
    ghost var sent, chunks := tx.sent, Split(Concat(file.parts), CHUNK_SIZE);
    ShipSends(c, t, file);
    BinariesWrapped(chunks);
    var header := Text(c.serde.header.encode(FileHeader(file.id, token)));
    var ok := tx.Send(header);
    ok := ProcessInChunks(file.parts, tx, AsBinary);
    assert tx.sent == sent + [header] + Binaries(chunks) == sent + ([header] + Binaries(chunks));
  }

  /** The queue of files, the end of it, and the one message awaited after that. */
  method SendFiles(c: Config, files: seq<FileDto>, tokens: map<string, string>, rx: Receiver<Message>,
                   tx: Sender<Message>, queue: Receiver<RTCFile>,
                   ghost whole: (S.Step, Inputs), ghost t: S.Task, ghost i: Inputs) returns (report: Report)
    requires tx.limit.None? && t.stage.NextFile? && t.tokens == tokens && t.queued == []
    requires i == Inputs(rx.items, i.entries, queue.items) && OnTrack(c, files, whole, tx.sent, t, i)
    modifies rx, tx, queue
    ensures report == ReportOf(whole.0.task) && tx.sent == whole.0.out
    ensures rx.items == whole.1.msgs && queue.items == whole.1.queue && whole.1.entries == i.entries
  {
    hide OnTrack, Ship, S.OnAction;
    ghost var t', i' := t, i;
    var failed: seq<string> := [];
    while true
      invariant t'.stage.NextFile? && t'.tokens == tokens && failed == Unwanted(tokens, t'.queued)
      invariant i' == i.(queue := queue.items) && rx.items == i.msgs
      invariant OnTrack(c, files, whole, tx.sent, t', i')
      decreases |queue.items|
    {
      Track(c, files, whole, tx.sent, t', i');
      var next := queue.Recv();
      if next.None? {
        break;
      }
      var file := next.value;
      ShipSends(c, t', file);
      ShipReports(c, t', file);
      if file.id in tokens {
        SendFile(c, tokens[file.id], file, tx, t');
      } else {
        assert tx.sent + [] == tx.sent;
        failed := failed + [file.id];
      }
      t', i' := Ship(c, t', file).task, i'.(queue := queue.items);
    }
    CloseSends(c, t');
    var ok := tx.Send(DELIMITER);
    t' := t'.(stage := S.AwaitLast);
    Track(c, files, whole, tx.sent, t', i');
    assert tx.sent + [] == tx.sent;
    var last := rx.Recv();
    Track(c, files, whole, tx.sent, t'.(stage := S.Ended(Finished)), i'.(msgs := rx.items));
    return Report(Some(Finished), tokens, failed);
  }

  lemma CloseSends(c: Config, t: S.Task)
    requires t.stage.NextFile?
    ensures S.OnAction(c, t, S.Close) == t.Send([DELIMITER], S.AwaitLast)
  {
  }

  /** The answer to the file list. A pairing request is not followed further. */
  method LearnSelection(c: Config, files: seq<FileDto>, rx: Receiver<Message>, tx: Sender<Message>,
                        queue: Receiver<RTCFile>, ghost whole: (S.Step, Inputs), ghost t: S.Task, ghost i: Inputs) returns (report: Report)
    requires tx.limit.None? && t.stage == S.AwaitSelection([]) && Untouched(t)
    requires i == Inputs(rx.items, i.entries, queue.items) && OnTrack(c, files, whole, tx.sent, t, i)
    modifies rx, tx, queue
    ensures report == ReportOf(whole.0.task) && tx.sent == whole.0.out
    ensures rx.items == whole.1.msgs && queue.items == whole.1.queue && whole.1.entries == i.entries
  {
    hide OnTrack, TakeString;
    var payload := ReceiveStringFromChunks(rx);
    TrackSelection(c, files, whole, tx.sent, t, i, []);
    assert [] + payload == payload;
    ghost var t', i' := S.OnSelection(c, t, payload).task, i.(msgs := rx.items);
    match c.serde.fileList.decode(payload)
    case Some(SelectionOk(tokens)) =>
      report := SendFiles(c, files, tokens, rx, tx, queue, whole, t', i');
    case Some(SelectionPair(_)) =>
      Track(c, files, whole, tx.sent, t', i');
      return Ending(None);
    case Some(SelectionDeclined) =>
      Track(c, files, whole, tx.sent, t', i');
      return Ending(Some(Declined));
    case _ =>
      Track(c, files, whole, tx.sent, t', i');
      return Ending(Some(ProtocolError));
  }

  lemma {:induction false} FedKeeps(c: Config, files: seq<FileDto>, t: S.Task, msgs: seq<Message>)
    ensures var t' := SenderFed(c, files, t, msgs).0.task;
            t' == t.(stage := t'.stage, listed := t'.listed)
    decreases |msgs|
  {
    if t.stage.AwaitPin? && msgs != [] {
      FedKeeps(c, files, S.OnPin(c, files, t, t.stage.tries, msgs[0]).task, msgs[1..]);
    }
  }

  lemma JudgeKeeps(c: Config, files: seq<FileDto>, t: S.Task, config: PinConfig)
    ensures var t' := S.JudgePin(c, files, t, config, "", 0).task;
            t' == t.(stage := t'.stage, listed := t'.listed)
  {
  }

  /** The challenge with our own PIN, and the file list as its good end. */
  method Challenge(c: Config, files: seq<FileDto>, config: PinConfig, rx: Receiver<Message>, tx: Sender<Message>,
                   ghost whole: (S.Step, Inputs), ghost t: S.Task, ghost i: Inputs)
    returns (passed: bool, outcome: Option<Outcome>, ghost t': S.Task, ghost i': Inputs)
    requires tx.limit.None? && c.pin == Some(config) && Untouched(t) && i.msgs == rx.items
    requires var first := S.JudgePin(c, files, t, config, "", 0);
             OnTrack(c, files, whole, tx.sent + first.out, first.task, i)
    modifies rx, tx
    ensures i' == i.(msgs := rx.items) && Untouched(t')
    ensures if passed then t'.stage == S.AwaitSelection([]) && OnTrack(c, files, whole, tx.sent, t', i')
            else whole == (S.Step(t', tx.sent), i') && Exit(t'.stage) == outcome
  {
    hide OnTrack, S.JudgePin, SenderFed, Verification, Sent, SenderNotices, Framed;
    ghost var first := S.JudgePin(c, files, t, config, "", 0);
    ghost var (step, rest) := SenderFed(c, files, first.task, i.msgs);
    ghost var sent := tx.sent;
    SenderRefinesVerifyPin(c, files, t, config, i.msgs);
    TrackPins(c, files, whole, sent + first.out, first.task, i);
    FedKeeps(c, files, first.task, i.msgs);
    JudgeKeeps(c, files, t, config);
    assert sent + first.out + step.out == sent + (first.out + step.out);
    SenderNoticesSent(c, Verification(c.serde, config, i.msgs, true).2);
    var result := VerifyPin(c.serde, config, rx, tx, true, SenderSends(c));
    t', i' := step.task, i.(msgs := rx.items);
    if result.Verified? {
      SendStringInChunks(c.serde.pinSending.encode(ListOk(files)), tx);
      assert tx.sent == sent + (first.out + step.out);
      return true, None, t', i';
    }
    assert tx.sent == sent + (first.out + step.out);
    Track(c, files, whole, tx.sent, t', i');
    if result.Closed? {
      ClosedReadsAll(c.serde, config, i.msgs, true);
    }
    outcome := match result
      case TooManyRequests => Some(TooManyAttempts)
      case Malformed => Some(ProtocolError)
      case _ => None;
    return false, outcome, t', i';
  }

  /** The sender's own challenge, if it has a PIN, and the file list. */
  method Offer(c: Config, files: seq<FileDto>, rx: Receiver<Message>, tx: Sender<Message>,
               ghost whole: (S.Step, Inputs), ghost t: S.Task, ghost i: Inputs)
    returns (passed: bool, outcome: Option<Outcome>, ghost t': S.Task, ghost i': Inputs)
    requires tx.limit.None? && Untouched(t) && i.msgs == rx.items
    requires var step := S.Challenge(c, files, t);
             OnTrack(c, files, whole, tx.sent + step.out, step.task, i)
    modifies rx, tx
    ensures i' == i.(msgs := rx.items) && Untouched(t')
    ensures if passed then t'.stage == S.AwaitSelection([]) && OnTrack(c, files, whole, tx.sent, t', i')
            else whole == (S.Step(t', tx.sent), i') && Exit(t'.stage) == outcome
  {
    hide OnTrack, S.JudgePin;
    match c.pin
    case Some(config) =>
      passed, outcome, t', i' := Challenge(c, files, config, rx, tx, whole, t, i);
    case None =>
      SendStringInChunks(c.serde.pinSending.encode(ListOk(files)), tx);
      return true, None, S.SendList(c, files, t).task, i;
  }

  /** The token exchange for the given nonce, with the receiver's challenge if it sets one, up to the file list. */
  method Authenticate(c: Config, files: seq<FileDto>, nonce: bytes, rx: Receiver<Message>, tx: Sender<Message>,
                      entries: Receiver<string>, ghost whole: (S.Step, Inputs), ghost t: S.Task, ghost i: Inputs)
    returns (admitted: bool, outcome: Option<Outcome>, ghost t': S.Task, ghost i': Inputs)
    requires tx.limit.None? && i.msgs == rx.items && i.entries == entries.items && Untouched(t)
    requires t.stage == S.AwaitToken(nonce) && OnTrack(c, files, whole, tx.sent, t, i)
    modifies rx, tx, entries
    ensures i' == i.(msgs := rx.items, entries := entries.items) && Untouched(t')
    ensures if admitted then t'.stage == S.AwaitSelection([]) && OnTrack(c, files, whole, tx.sent, t', i')
            else whole == (S.Step(t', tx.sent), i') && Exit(t'.stage) == outcome
  {
    hide OnTrack, Trust, S.Challenge;
    Track(c, files, whole, tx.sent, t, i);
    var msg := rx.Recv();
    if msg.None? {
      return false, None, t, i;
    }
    ghost var step := S.OnToken(c, files, t, nonce, msg.value);
    t', i' := step.task, i.(msgs := rx.items);
    assert tx.sent + [] == tx.sent;
    var response := if msg.value.isString then c.serde.tokenResponse.decode(msg.value.data) else None;
    if response.None? {
      Track(c, files, whole, tx.sent, t', i');
      return false, Some(ProtocolError), t', i';
    }
    if response.value.TokenInvalidSignature? {
      Track(c, files, whole, tx.sent, t', i');
      return false, Some(BadSignature), t', i';
    }
    match Trust(c, response.value.token, nonce)
    case Rejected =>
      Track(c, files, whole, tx.sent, t', i');
      return false, Some(BadSignature), t', i';
    case Panicked =>
      Track(c, files, whole, tx.sent, t', i');
      return false, Some(Crashed), t', i';
    case Accepted =>
      if response.value.TokenOk? {
        admitted, outcome, t', i' := Offer(c, files, rx, tx, whole, t, i');
      } else {
        admitted, outcome, t', i' := NamePin(c, files, rx, tx, entries, whole, t', i');
      }
  }

  /** The receiver's challenge, and on from there. */
  method NamePin(c: Config, files: seq<FileDto>, rx: Receiver<Message>, tx: Sender<Message>, entries: Receiver<string>,
                 ghost whole: (S.Step, Inputs), ghost t: S.Task, ghost i: Inputs)
    returns (admitted: bool, outcome: Option<Outcome>, ghost t': S.Task, ghost i': Inputs)
    requires tx.limit.None? && i.msgs == rx.items && i.entries == entries.items && Untouched(t)
    requires t.stage == S.EnterPin && OnTrack(c, files, whole, tx.sent, t, i)
    modifies rx, tx, entries
    ensures i' == i.(msgs := rx.items, entries := entries.items) && Untouched(t')
    ensures if admitted then t'.stage == S.AwaitSelection([]) && OnTrack(c, files, whole, tx.sent, t', i')
            else whole == (S.Step(t', tx.sent), i') && Exit(t'.stage) == outcome
  {
    hide OnTrack, S.Challenge, Handled;
    TrackEntries(c, files, whole, tx.sent, t, i);
    NoPinLeft(i.entries, i.msgs, false, ParseReply(c));
    NoReplyLeft(i.entries, i.msgs, ParseReply(c));
    ghost var n := Handled(i.entries, i.msgs, false, ParseReply(c)).1;
    ghost var t1 := t.(entered := t.entered + i.entries[..n]);
    var result := HandlePin(c.serde, entries, rx, tx, false, ParseReply(c));
    i' := i.(msgs := rx.items, entries := entries.items);
    if result.Entered? {
      admitted, outcome, t', i' := Offer(c, files, rx, tx, whole, t1, i');
      return;
    }
    t' := AfterPins(c, files, t1, result).task;
    assert tx.sent + [] == tx.sent;
    Track(c, files, whole, tx.sent, t', i');
    outcome := match result
      case NoMoreAttempts => Some(TooManyAttempts)
      case BadReply => Some(ProtocolError)
      case _ => None;
    return false, outcome, t', i';
  }

  lemma {:induction false} NoReplyLeft(entries: seq<string>, msgs: seq<Message>, parse: bytes -> ChallengeReply<()>)
    ensures Handled(entries, msgs, false, parse).0.ChannelClosed? ==> Handled(entries, msgs, false, parse).2 == []
  {
    if entries != [] && msgs != [] && msgs[0].isString {
      NoReplyLeft(entries[1..], msgs[1..], parse);
    }
  }

  /** The sending task, start to end. What it sends, what it leaves, how it ends and what the application is told are
      those of the machine driven by the same inputs. */
  method SendOffer(c: Config, files: seq<FileDto>, rx: Receiver<Message>, tx: Sender<Message>,
                   entries: Receiver<string>, queue: Receiver<RTCFile>) returns (report: Report)
    requires tx.limit.None?
    modifies rx, tx, entries, queue
    ensures var begin := S.Begin(c);
            var (step, rest) := Driven(c, files, begin.task, Inputs(old(rx.items), old(entries.items), old(queue.items)));
            && report == ReportOf(step.task) && tx.sent == old(tx.sent) + begin.out + step.out
            && rx.items == rest.msgs && entries.items == rest.entries && queue.items == rest.queue
  {
    ghost var t, i := S.Begin(c).task, Inputs(rx.items, entries.items, queue.items);
    var ok := tx.Send(NonceText(c));
    ghost var (driven, left) := Driven(c, files, t, i);
    ghost var whole := (S.Step(driven.task, tx.sent + driven.out), left);
    assert OnTrack(c, files, whole, tx.sent, t, i);
    hide Driven, OnTrack, ReadNonce, OwnToken;
    Track(c, files, whole, tx.sent, t, i);
    var msg := rx.Recv();
    if msg.None? {
      return Ending(None);
    }
    var remote := ReadNonce(c.serde, msg.value);
    ghost var t1, i1 := S.OnNonce(c, t, msg.value).task, i.(msgs := rx.items);
    assert tx.sent + [] == tx.sent;
    if remote.None? {
      Track(c, files, whole, tx.sent, t1, i1);
      return Ending(Some(ProtocolError));
    }
    var nonce := c.nonce + remote.value;
    ok := tx.Send(Text(c.serde.tokenRequest.encode(TokenRequest(OwnToken(c, nonce)))));
    var admitted, outcome;
    admitted, outcome, t1, i1 := Authenticate(c, files, nonce, rx, tx, entries, whole, t1, i1);
    if !admitted {
      return Ending(outcome);
    }
    report := LearnSelection(c, files, rx, tx, queue, whole, t1, i1);
  }
}
