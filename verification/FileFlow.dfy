/** The part of the receive loop that concerns file contents, and how a whole queue of messages moves it on. */
module FileFlow {
  import opened Basics
  import opened Framing
  import opened Model
  import opened Protocol
  import opened FileLoop
  import Sending

  /** Whether a file is open, and what was delivered so far. */
  datatype Flow = Flow(open: bool, delivered: seq<Delivery>)

  function FlowOf(loop: Loop): Flow {
    Flow(loop.open.Some?, loop.delivered)
  }

  function FlowStep(s: Setting, f: Flow, msg: Message): Flow {
    if !msg.isString then
      if f.open then Flow(true, Forward(f.delivered, msg.data)) else f
    else
      match ReadHeader(s, msg)
      case Opened(id) => Flow(true, f.delivered + [Delivery(id, [])])
      case _ => Flow(false, f.delivered)
  }

  function FlowAll(s: Setting, f: Flow, msgs: seq<Message>): Flow
    decreases |msgs|
  {
    if msgs == [] then f else FlowAll(s, FlowStep(s, f, msgs[0]), msgs[1..])
  }

  lemma {:induction false} FlowAppend(s: Setting, f: Flow, a: seq<Message>, b: seq<Message>)
    ensures FlowAll(s, f, a + b) == FlowAll(s, FlowAll(s, f, a), b)
    decreases |a|
  {
    if a == [] {
      assert a + b == b;
    } else {
      FlowAppend(s, FlowStep(s, f, a[0]), a[1..], b);
      assert (a + b)[1..] == a[1..] + b;
    }
  }

  lemma FlowSnoc(s: Setting, f: Flow, a: seq<Message>, msg: Message)
    ensures FlowAll(s, f, a + [msg]) == FlowStep(s, FlowAll(s, f, a), msg)
  {
    FlowAppend(s, f, a, [msg]);
    assert FlowAll(s, FlowAll(s, f, a), [msg]) == FlowAll(s, FlowStep(s, FlowAll(s, f, a), msg), []);
  }

  lemma FlowCons(s: Setting, f: Flow, msg: Message, rest: seq<Message>)
    ensures FlowAll(s, f, [msg] + rest) == FlowAll(s, FlowStep(s, f, msg), rest)
  {
    assert ([msg] + rest)[1..] == rest;
  }

  /** A turn that does not end the loop moves the flow by one step. */
  lemma TurnIsFlowStep(s: Setting, verdict: Option<FileResponse>, loop: Loop, msg: Message)
    requires Turn(s, verdict, loop, msg).status == Running
    ensures FlowOf(Turn(s, verdict, loop, msg)) == FlowStep(s, FlowOf(loop), msg)
  {
  }

  /** A chunk list goes to the open file, or nowhere. */
  lemma {:induction false} FlowBinaries(s: Setting, f: Flow, chunks: seq<bytes>)
    requires f.open ==> f.delivered != []
    ensures FlowAll(s, f, Binaries(chunks))
         == if f.open then Flow(true, Sending.Extend(f.delivered, chunks)) else f
    decreases |chunks|
  {
    if chunks == [] {
      if f.open {
        var last := f.delivered[|f.delivered| - 1];
        assert last.parts + [] == last.parts;
      }
    } else {
      var msgs := Binaries(chunks);
      assert msgs[1..] == Binaries(chunks[1..]);
      FlowBinaries(s, FlowStep(s, f, msgs[0]), chunks[1..]);
      if f.open {
        var last := f.delivered[|f.delivered| - 1];
        assert last.parts + [chunks[0]] + chunks[1..] == last.parts + chunks;
      }
    }
  }

  // ---- The sender's record, seen with the receiver's eyes --------------------------------------

  /** The announced files that the receiver was offered. */
  function Offered(files: seq<FileDto>, sent: seq<Delivery>): seq<Delivery>
    decreases |sent|
  {
    if sent == [] then []
    else
      var n := |sent| - 1;
      Offered(files, sent[..n]) + (if IsOffered(files, sent[n].id) then [sent[n]] else [])
  }

  predicate LastOffered(files: seq<FileDto>, sent: seq<Delivery>) {
    sent != [] && IsOffered(files, sent[|sent| - 1].id)
  }

  function Target(files: seq<FileDto>, sent: seq<Delivery>): (f: Flow)
    ensures f.open ==> f.delivered != []
  {
    Flow(LastOffered(files, sent), Offered(files, sent))
  }

  lemma OfferedSnoc(files: seq<FileDto>, sent: seq<Delivery>, d: Delivery)
    ensures Offered(files, sent + [d]) == Offered(files, sent) + (if IsOffered(files, d.id) then [d] else [])
  {
    assert (sent + [d])[..|sent|] == sent;
  }

  lemma TargetExtend(files: seq<FileDto>, sent: seq<Delivery>, chunks: seq<bytes>)
    ensures Target(files, Sending.Extend(sent, chunks))
         == var f := Target(files, sent);
            if f.open then Flow(true, Sending.Extend(f.delivered, chunks)) else f
  {
    if sent != [] {
      var n := |sent| - 1;
      var sent' := Sending.Extend(sent, chunks);
      assert sent'[..n] == sent[..n];
    }
  }

  // ---- Streams of file messages -----------------------------------------------------------------

  /** A message an honest sender puts on the channel while it sends files. */
  predicate Good(serde: Serde, msg: Message) {
    msg.isString ==> |msg.data| > 1 && serde.header.decode(msg.data).Some?
  }

  /** The messages before the closing delimiter. */
  function Body(msgs: seq<Message>, closed: bool): seq<Message> {
    if closed && msgs != [] then msgs[..|msgs| - 1] else msgs
  }

  ghost predicate Stream(serde: Serde, msgs: seq<Message>, closed: bool) {
    && (closed ==> msgs != [] && msgs[|msgs| - 1] == DELIMITER)
    && forall i :: 0 <= i < |Body(msgs, closed)| ==> Good(serde, Body(msgs, closed)[i])
  }

  /** What is under way carries the receiver's flow to everything the sender announced. */
  ghost predicate Carries(s: Setting, loop: Loop, msgs: seq<Message>, closed: bool, sent: seq<Delivery>) {
    && Stream(s.serde, msgs, closed)
    && FlowAll(s, FlowOf(loop), Body(msgs, closed)) == Target(s.files, sent)
  }

  /** The head of a stream with something before its delimiter leaves a stream. */
  lemma StreamTail(s: Setting, loop: Loop, msg: Message, rest: seq<Message>, closed: bool, sent: seq<Delivery>)
    requires Carries(s, loop, [msg] + rest, closed, sent) && (closed ==> rest != [])
    ensures Good(s.serde, msg) && Stream(s.serde, rest, closed)
    ensures FlowAll(s, FlowStep(s, FlowOf(loop), msg), Body(rest, closed)) == Target(s.files, sent)
  {
    var all := [msg] + rest;
    var body := Body(all, closed);
    assert body == [msg] + Body(rest, closed);
    assert body[0] == msg;
    forall i | 0 <= i < |Body(rest, closed)| ensures Good(s.serde, Body(rest, closed)[i]) {
      assert body[i + 1] == Body(rest, closed)[i];
    }
    FlowCons(s, FlowOf(loop), msg, Body(rest, closed));
  }

  lemma CarriesHeader(s: Setting, loop: Loop, msgs: seq<Message>, sent: seq<Delivery>, id: string)
    requires Faithful(s.serde.header) && id in s.tokens
    requires Carries(s, loop, msgs, false, sent)
    ensures Carries(s, loop, msgs + [Text(s.serde.header.encode(FileHeader(id, s.tokens[id])))], false,
                    sent + [Delivery(id, [])])
  {
    var header := FileHeader(id, s.tokens[id]);
    assert s.serde.header.decode(s.serde.header.encode(header)) == Some(header);
    FlowSnoc(s, FlowOf(loop), msgs, Text(s.serde.header.encode(header)));
    OfferedSnoc(s.files, sent, Delivery(id, []));
  }

  lemma CarriesChunks(s: Setting, loop: Loop, msgs: seq<Message>, sent: seq<Delivery>, chunks: seq<bytes>)
    requires Carries(s, loop, msgs, false, sent)
    ensures Carries(s, loop, msgs + Binaries(chunks), false, Sending.Extend(sent, chunks))
  {
    FlowAppend(s, FlowOf(loop), msgs, Binaries(chunks));
    FlowBinaries(s, Target(s.files, sent), chunks);
    TargetExtend(s.files, sent, chunks);
  }

  lemma CarriesDelimiter(s: Setting, loop: Loop, msgs: seq<Message>, sent: seq<Delivery>)
    requires Carries(s, loop, msgs, false, sent)
    ensures Carries(s, loop, msgs + [DELIMITER], true, sent)
  {
    assert Body(msgs + [DELIMITER], true) == msgs;
  }
}
