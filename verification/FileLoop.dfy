/** The loop with which the receiving device takes files off the data channel. */
module FileLoop {
  import opened Basics
  import opened Framing
  import opened Model
  import opened Protocol

  datatype Reason = InvalidToken | FileNotFound | SizeUnavailable | MissingHeader

  datatype FileError = FileError(id: string, reason: Reason)

  /** A file handed to the application, with the binary messages forwarded to it so far. */
  datatype Delivery = Delivery(id: string, parts: seq<bytes>)

  const HEADERLESS: FileError := FileError("unknown", MissingHeader)

  /** What the two devices agreed on: the offered files, and a token for each selected one. */
  datatype Setting = Setting(serde: Serde, files: seq<FileDto>, tokens: map<string, string>)

  datatype HeaderOutcome = Unparsable | Refused(error: FileError) | Opened(id: string)

  predicate IsOffered(files: seq<FileDto>, id: string) {
    exists i :: 0 <= i < |files| && files[i].id == id
  }

  function ReadHeader(s: Setting, msg: Message): HeaderOutcome {
    match s.serde.header.decode(msg.data)
    case None => Unparsable
    case Some(header) =>
      if header.id !in s.tokens then Refused(FileError(header.id, FileNotFound))
      else if header.token != s.tokens[header.id] then Refused(FileError(header.id, InvalidToken))
      else if !IsOffered(s.files, header.id) then Refused(FileError(header.id, SizeUnavailable))
      else Opened(header.id)
  }

  /** The reply for a closed file, from what the application said about it. */
  function AnswerFor(id: string, verdict: Option<FileResponse>): FileResponse {
    var error :=
      match verdict
      case None => Some("Failed to receive file result")
      case Some(result) =>
        if result.success then None
        else if result.error.None? then Some("Unknown error")
        else result.error;
    FileResponse(id, error.None?, error)
  }

  datatype Status = Running | Done | Broken

  datatype Loop = Loop(open: Option<string>, delivered: seq<Delivery>, errors: seq<FileError>,
                       responses: seq<FileResponse>, status: Status)

  const INITIAL: Loop := Loop(None, [], [], [], Running)

  function Forward(delivered: seq<Delivery>, data: bytes): seq<Delivery> {
    if delivered == [] then []
    else
      var last := delivered[|delivered| - 1];
      delivered[..|delivered| - 1] + [last.(parts := last.parts + [data])]
  }

  function OnHeader(s: Setting, loop: Loop, msg: Message): Loop {
    match ReadHeader(s, msg)
    case Unparsable => loop.(status := Broken)
    case Refused(error) => loop.(errors := loop.errors + [error])
    case Opened(id) => loop.(open := Some(id), delivered := loop.delivered + [Delivery(id, [])])
  }

  /** The open file is complete; the application says how it fared. */
  function Closed(verdict: Option<FileResponse>, loop: Loop, id: string): Loop {
    loop.(open := None, responses := loop.responses + [AnswerFor(id, verdict)])
  }

  /** One turn of the loop. The application's verdict is asked for only when the message closes a file. */
  function Turn(s: Setting, verdict: Option<FileResponse>, loop: Loop, msg: Message): Loop {
    if msg.isString then
      match loop.open
      case None => OnHeader(s, loop, msg)
      case Some(id) =>
        var closed := Closed(verdict, loop, id);
        if IsDelimiter(msg) then closed.(status := Done)
        else OnHeader(s, closed, msg)
    else if loop.open.Some? then
      loop.(delivered := Forward(loop.delivered, msg.data))
    else
      loop.(errors := loop.errors + [HEADERLESS])
  }

  /** The application gives its verdicts in order, one per closed file. */
  function NextVerdict(verdicts: seq<FileResponse>, loop: Loop): Option<FileResponse> {
    var n := |loop.responses|;
    if n < |verdicts| then Some(verdicts[n]) else None
  }

  /** The loop after all of `msgs`; once it has ended, messages are left alone. */
  function Received(s: Setting, verdicts: seq<FileResponse>,
                    msgs: seq<Message>): Loop
    decreases |msgs|
  {
    if msgs == [] then INITIAL
    else
      var loop := Received(s, verdicts, msgs[..|msgs| - 1]);
      if loop.status != Running then loop
      else Turn(s, NextVerdict(verdicts, loop), loop, msgs[|msgs| - 1])
  }

  /** Waits for the application's verdict on a file that is complete, and passes it on to the peer. */
  method AnswerFile(s: Setting, id: string, ghost loop: Loop, ghost verdicts: seq<FileResponse>,
                    user: Receiver<FileResponse>, tx: Sender<Message>)
    requires tx.limit.None? && user.items == Remaining(verdicts, |loop.responses|)
    modifies user, tx
    ensures user.items == Remaining(verdicts, |Closed(NextVerdict(verdicts, loop), loop, id).responses|)
    ensures forall sent :: old(tx.sent) == sent + Responses(s, loop.responses) ==>
              tx.sent == sent + Responses(s, Closed(NextVerdict(verdicts, loop), loop, id).responses)
  {
    var verdict := user.Recv();
    var answer := AnswerFor(id, verdict);
    var ok := tx.Send(Text(s.serde.response.encode(answer)));
    assert Responses(s, loop.responses + [answer])
        == Responses(s, loop.responses) + [Text(s.serde.response.encode(answer))];
  }

  /** Takes files off `rx` until the closing delimiter, a message that is no header, or the end of the channel. */
  method ReceiveFiles(s: Setting, rx: Receiver<Message>, user: Receiver<FileResponse>, tx: Sender<Message>)
    returns (status: Status, delivered: seq<Delivery>, errors: seq<FileError>, ghost handled: nat)
    requires tx.limit.None?
    modifies rx, user, tx
    ensures handled <= |old(rx.items)| && rx.items == old(rx.items)[handled..]
    ensures status == Running ==> rx.items == []
    ensures handled > 0 ==> Received(s, old(user.items), old(rx.items)[..handled - 1]).status == Running
    ensures var loop := Received(s, old(user.items), old(rx.items)[..handled]);
            && status == loop.status && delivered == loop.delivered && errors == loop.errors
            && tx.sent == old(tx.sent) + Responses(s, loop.responses)
            && user.items == Remaining(old(user.items), |loop.responses|)
  {
    ghost var msgs, verdicts, sent := rx.items, user.items, tx.sent;
    ghost var loop := INITIAL;
    var fileState: Option<string> := None;
    status, delivered, errors, handled := Running, [], [], 0;
    while true
      invariant handled <= |msgs| && rx.items == msgs[handled..]
      invariant loop == Received(s, verdicts, msgs[..handled])
      invariant loop == Loop(fileState, delivered, errors, loop.responses, Running)
      invariant status == Running
      invariant handled > 0 ==> Received(s, verdicts, msgs[..handled - 1]).status == Running
      invariant user.items == Remaining(verdicts, |loop.responses|)
      invariant tx.sent == sent + Responses(s, loop.responses)
      decreases |rx.items|
    {
      var next := rx.Recv();
      if next.None? {
        return;
      }
      var msg := next.value;
      ReceivedStep(s, verdicts, msgs, handled);
      ghost var before := loop;
      loop := Turn(s, NextVerdict(verdicts, loop), loop, msg);
      handled := handled + 1;
      if msg.isString {
        var lastFileId := fileState;
        fileState := None;
        if lastFileId.Some? {
          AnswerFile(s, lastFileId.value, before, verdicts, user, tx);
          if IsDelimiter(msg) {
            status := Done;
            return;
          }
        }
        match ReadHeader(s, msg)
        case Unparsable =>
          status := Broken;
          return;
        case Refused(error) =>
          errors := errors + [error];
        case Opened(id) =>
          fileState := Some(id);
          delivered := delivered + [Delivery(id, [])];
      } else if fileState.Some? {
        delivered := Forward(delivered, msg.data);
      } else {
        errors := errors + [HEADERLESS];
      }
    }
  }

  function Remaining<T>(items: seq<T>, taken: nat): seq<T> {
    if taken <= |items| then items[taken..] else []
  }

  lemma ReceivedStep(s: Setting, verdicts: seq<FileResponse>, msgs: seq<Message>, n: nat)
    requires n < |msgs| && Received(s, verdicts, msgs[..n]).status == Running
    ensures var before := Received(s, verdicts, msgs[..n]);
            Received(s, verdicts, msgs[..n + 1]) == Turn(s, NextVerdict(verdicts, before), before, msgs[n])
  {
    assert msgs[..n + 1][..n] == msgs[..n];
  }

  function Responses(s: Setting, answers: seq<FileResponse>): (msgs: seq<Message>)
    ensures |msgs| == |answers|
  {
    seq(|answers|, i requires 0 <= i < |answers| => Text(s.serde.response.encode(answers[i])))
  }

  // ---- What the loop owes to any peer ---------------------------------------------------------

  /** A text message together with the binary messages up to the next one. */
  datatype Segment = Segment(head: Message, parts: seq<bytes>)

  /** The binary messages before the first text message, and the segments after them. */
  function Segments(msgs: seq<Message>): (seq<bytes>, seq<Segment>)
    decreases |msgs|
  {
    if msgs == [] then ([], [])
    else
      var (lead, segments) := Segments(msgs[..|msgs| - 1]);
      var last := msgs[|msgs| - 1];
      if last.isString then (lead, segments + [Segment(last, [])])
      else if segments == [] then (lead + [last.data], [])
      else (lead, Grown(segments, last.data))
  }

  function Grown(segments: seq<Segment>, data: bytes): seq<Segment>
    requires segments != []
  {
    var n := |segments| - 1;
    segments[..n] + [segments[n].(parts := segments[n].parts + [data])]
  }

  /** The message is the header of an offered file, with the very token that was given out for it. */
  predicate Accepts(s: Setting, msg: Message, id: string) {
    && id in s.tokens && s.serde.header.decode(msg.data) == Some(FileHeader(id, s.tokens[id]))
    && exists file :: file in s.files && file.id == id
  }

  /** The message is a header of which exactly this is wrong: no token was given out for the file, or another one, or the
      file was never offered. */
  predicate Refuses(s: Setting, msg: Message, error: FileError) {
    var header := s.serde.header.decode(msg.data);
    && header.Some? && header.value.id == error.id
    && match error.reason
       case FileNotFound => error.id !in s.tokens
       case InvalidToken => error.id in s.tokens && s.tokens[error.id] != header.value.token
       case SizeUnavailable =>
         && error.id in s.tokens && s.tokens[error.id] == header.value.token
         && forall file :: file in s.files ==> file.id != error.id
       case MissingHeader => false
  }

  lemma OfferedIff(files: seq<FileDto>, id: string)
    ensures IsOffered(files, id) <==> exists file :: file in files && file.id == id
  {
    if IsOffered(files, id) {
      var i :| 0 <= i < |files| && files[i].id == id;
      assert files[i] in files;
    }
  }

  predicate Opens(s: Setting, msg: Message) {
    match s.serde.header.decode(msg.data)
    case None => false
    case Some(header) => Accepts(s, msg, header.id)
  }

  /** Every accepted header opens one file, which gets all and only the binary messages of its segment. */
  function Deliveries(s: Setting, segments: seq<Segment>): seq<Delivery>
    decreases |segments|
  {
    if segments == [] then []
    else
      var n := |segments| - 1;
      var head := segments[n].head;
      Deliveries(s, segments[..n])
      + (if Opens(s, head) then [Delivery(s.serde.header.decode(head.data).value.id, segments[n].parts)] else [])
  }

  function Orphans(n: nat): seq<FileError> {
    seq(n, _ => FileError("unknown", MissingHeader))
  }

  /** What is wrong with a header that does not open a file. */
  function Fault(s: Setting, header: FileHeader): FileError {
    FileError(header.id,
              if header.id !in s.tokens then FileNotFound
              else if header.token == s.tokens[header.id] then SizeUnavailable
              else InvalidToken)
  }

  lemma HeaderCases(s: Setting, msg: Message)
    ensures ReadHeader(s, msg) ==
            match s.serde.header.decode(msg.data)
            case None => Unparsable
            case Some(header) => if Opens(s, msg) then Opened(header.id) else Refused(Fault(s, header))
  {
    if s.serde.header.decode(msg.data).Some? {
      OfferedIff(s.files, s.serde.header.decode(msg.data).value.id);
    }
  }

  /** A refused header is reported once, and so is every binary message that follows it. */
  function Reports(s: Setting, lead: seq<bytes>, segments: seq<Segment>): seq<FileError>
    decreases |segments|
  {
    if segments == [] then Orphans(|lead|)
    else
      var n := |segments| - 1;
      var header := s.serde.header.decode(segments[n].head.data);
      Reports(s, lead, segments[..n])
      + (if header.None? || Opens(s, segments[n].head) then []
         else [Fault(s, header.value)] + Orphans(|segments[n].parts|))
  }

  /** The answer for a file, given what the application said about it, if anything. */
  function Reply(id: string, verdict: Option<FileResponse>): FileResponse {
    if verdict.None? then FileResponse(id, false, Some("Failed to receive file result"))
    else if verdict.value.success then FileResponse(id, true, None)
    else FileResponse(id, false, Some(if verdict.value.error.Some? then verdict.value.error.value else "Unknown error"))
  }

  /** The answers for delivered files, in order, each from the verdict on it. */
  function Answers(delivered: seq<Delivery>, verdicts: seq<FileResponse>): seq<FileResponse> {
    seq(|delivered|, i requires 0 <= i < |delivered| =>
      Reply(delivered[i].id, if i < |verdicts| then Some(verdicts[i]) else None))
  }

  /** The balance after any stream of messages, in terms of the stream's segments alone: what reached the
      application, what was reported as an error, and what was answered. */
  ghost predicate Balanced(s: Setting, verdicts: seq<FileResponse>, lead: seq<bytes>, segments: seq<Segment>, loop: Loop) {
    var delivered := Deliveries(s, segments);
    && loop.delivered == delivered
    && loop.errors == Reports(s, lead, segments)
    && (segments != [] ==> s.serde.header.decode(segments[|segments| - 1].head.data).Some?)
    && (loop.open.Some? <==> (segments != [] && Opens(s, segments[|segments| - 1].head)))
    && (loop.open.Some? ==> delivered != [] && loop.open.value == delivered[|delivered| - 1].id)
    && loop.responses == Answers(if loop.open.Some? then delivered[..|delivered| - 1] else delivered, verdicts)
  }

  /** The loop keeps the balance for as long as it runs. */
  lemma {:induction false} RunningConserves(s: Setting, verdicts: seq<FileResponse>, msgs: seq<Message>)
    requires Received(s, verdicts, msgs).status == Running
    ensures Balanced(s, verdicts, Segments(msgs).0, Segments(msgs).1, Received(s, verdicts, msgs))
    decreases |msgs|
  {
    if msgs == [] {
      assert Orphans(0) == [];
    } else {
      var n := |msgs| - 1;
      RunningConserves(s, verdicts, msgs[..n]);
      var (lead, segments) := Segments(msgs[..n]);
      var loop := Received(s, verdicts, msgs[..n]);
      if msgs[n].isString {
        TextKeepsBalance(s, verdicts, lead, segments, loop, msgs[n]);
      } else {
        BinaryKeepsBalance(s, verdicts, lead, segments, loop, msgs[n]);
      }
    }
  }

  lemma TextKeepsBalance(s: Setting, verdicts: seq<FileResponse>, lead: seq<bytes>, segments: seq<Segment>,
                         loop: Loop, msg: Message)
    requires Balanced(s, verdicts, lead, segments, loop) && msg.isString
    requires Turn(s, NextVerdict(verdicts, loop), loop, msg).status == Running
    ensures Balanced(s, verdicts, lead, segments + [Segment(msg, [])], Turn(s, NextVerdict(verdicts, loop), loop, msg))
  {
    var segments' := segments + [Segment(msg, [])];
    assert segments'[..|segments|] == segments;
    var loop' := Turn(s, NextVerdict(verdicts, loop), loop, msg);
    HeaderCases(s, msg);
    hide ReadHeader, Opens, Fault;
    CloseAnswers(s, verdicts, lead, segments, loop, msg);
    var delivered := Deliveries(s, segments);
    assert Orphans(0) == [];
    if loop'.open.Some? {
      assert Deliveries(s, segments')[..|delivered|] == delivered;
    } else {
      assert Deliveries(s, segments') == delivered;
    }
  }

  /** A text message answers the file it closes, if there is one, and no other. */
  lemma CloseAnswers(s: Setting, verdicts: seq<FileResponse>, lead: seq<bytes>, segments: seq<Segment>,
                     loop: Loop, msg: Message)
    requires Balanced(s, verdicts, lead, segments, loop) && msg.isString
    ensures Turn(s, NextVerdict(verdicts, loop), loop, msg).responses == Answers(Deliveries(s, segments), verdicts)
  {
    if loop.open.Some? {
      AnswersSnoc(Deliveries(s, segments), verdicts, loop);
    }
  }

  lemma AnswersSnoc(delivered: seq<Delivery>, verdicts: seq<FileResponse>, loop: Loop)
    requires delivered != [] && loop.responses == Answers(delivered[..|delivered| - 1], verdicts)
    ensures Answers(delivered, verdicts)
         == loop.responses + [Reply(delivered[|delivered| - 1].id, NextVerdict(verdicts, loop))]
  {
  }

  lemma BinaryKeepsBalance(s: Setting, verdicts: seq<FileResponse>, lead: seq<bytes>, segments: seq<Segment>,
                           loop: Loop, msg: Message)
    requires Balanced(s, verdicts, lead, segments, loop) && !msg.isString
    ensures var loop' := Turn(s, NextVerdict(verdicts, loop), loop, msg);
            if segments == [] then Balanced(s, verdicts, lead + [msg.data], [], loop')
            else Balanced(s, verdicts, lead, Grown(segments, msg.data), loop')
  {
    if segments == [] {
      assert Orphans(|lead| + 1) == Orphans(|lead|) + [HEADERLESS];
    } else {
      SegmentGrows(s, lead, segments, msg.data);
      var delivered := Deliveries(s, segments);
      if loop.open.Some? {
        assert Forward(delivered, msg.data)[..|delivered| - 1] == delivered[..|delivered| - 1];
      }
    }
  }

  lemma SegmentGrows(s: Setting, lead: seq<bytes>, segments: seq<Segment>, data: bytes)
    requires segments != []
    ensures var delivered, reports := Deliveries(s, segments), Reports(s, lead, segments);
            var head := segments[|segments| - 1].head;
            && (Opens(s, head) ==> delivered != [])
            && Deliveries(s, Grown(segments, data)) == (if Opens(s, head) then Forward(delivered, data) else delivered)
            && Reports(s, lead, Grown(segments, data))
               == (if s.serde.header.decode(head.data).Some? && !Opens(s, head) then reports + [HEADERLESS] else reports)
  {
    var n := |segments| - 1;
    assert Grown(segments, data)[..n] == segments[..n];
    assert Orphans(|segments[n].parts| + 1) == Orphans(|segments[n].parts|) + [HEADERLESS];
  }

  predicate LastOpened(s: Setting, segments: seq<Segment>) {
    segments != [] && Opens(s, segments[|segments| - 1].head)
  }

  /** The balance when the loop has ended, on the text message `last`: it closed the last file, if one was open, and
      every file was answered. A delimiter that closes a file ends the loop well; any other message that is no header
      breaks it. */
  ghost predicate Settled(s: Setting, verdicts: seq<FileResponse>, lead: seq<bytes>, segments: seq<Segment>, last: Message,
                          loop: Loop)
  {
    && loop.delivered == Deliveries(s, segments) && loop.errors == Reports(s, lead, segments)
    && loop.responses == Answers(loop.delivered, verdicts) && loop.open == None
    && last.isString
    && if LastOpened(s, segments) && |last.data| <= 1 then loop.status == Done
       else loop.status == Broken && s.serde.header.decode(last.data) == None
  }

  /** The loop ends exactly on a delimiter that closes an opened file, or on any other text that is no header, and by
      then every opened file has been answered, the last one included. */
  lemma EndAnswersAll(s: Setting, verdicts: seq<FileResponse>, msgs: seq<Message>, last: Message)
    requires Received(s, verdicts, msgs).status == Running
    ensures var (lead, segments) := Segments(msgs);
            var loop := Received(s, verdicts, msgs + [last]);
            && (loop.status == Done <==> last.isString && |last.data| <= 1 && LastOpened(s, segments))
            && (loop.status == Broken <==>
                  && last.isString && !(|last.data| <= 1 && LastOpened(s, segments))
                  && s.serde.header.decode(last.data) == None)
            && (loop.status != Running ==> Settled(s, verdicts, lead, segments, last, loop))
  {
    assert (msgs + [last])[..|msgs|] == msgs;
    RunningConserves(s, verdicts, msgs);
    HeaderCases(s, last);
    hide ReadHeader, Opens, Fault;
    if last.isString {
      CloseAnswers(s, verdicts, Segments(msgs).0, Segments(msgs).1, Received(s, verdicts, msgs), last);
    }
  }

  /** How many messages the loop takes before it ends, the one it ends on included. */
  function Taken(s: Setting, verdicts: seq<FileResponse>, msgs: seq<Message>): (n: nat)
    ensures n <= |msgs|
    decreases |msgs|
  {
    if msgs == [] then 0
    else
      var n := |msgs| - 1;
      if Received(s, verdicts, msgs[..n]).status != Running then Taken(s, verdicts, msgs[..n]) else n + 1
  }

  /** Against any peer and for any stream of messages: the loop takes all of them or ends on one, and in either case what
      reached the application, what was reported and what was answered is what the stream's segments call for, with
      every binary message taken accounted for once. */
  lemma {:induction false} LoopConserves(s: Setting, verdicts: seq<FileResponse>, msgs: seq<Message>)
    ensures var (loop, n) := (Received(s, verdicts, msgs), Taken(s, verdicts, msgs));
            && loop == Received(s, verdicts, msgs[..n]) && Accounted(loop) == BinaryCount(msgs[..n])
            && if loop.status == Running then
                 n == |msgs| && Balanced(s, verdicts, Segments(msgs).0, Segments(msgs).1, loop)
               else
                 var (lead, segments) := Segments(msgs[..if n > 0 then n - 1 else 0]);
                 n > 0 && Settled(s, verdicts, lead, segments, msgs[n - 1], loop)
    decreases |msgs|
  {
    assert msgs[..|msgs|] == msgs;
    if msgs == [] {
      RunningConserves(s, verdicts, msgs);
    } else {
      var n := |msgs| - 1;
      if Received(s, verdicts, msgs[..n]).status == Running {
        AllTaken(s, verdicts, msgs);
      } else {
        LoopConserves(s, verdicts, msgs[..n]);
        var m := Taken(s, verdicts, msgs[..n]);
        assert msgs[..n][..m] == msgs[..m];
        assert m > 0 ==> msgs[..n][..m - 1] == msgs[..m - 1];
      }
    }
  }

  /** The segments of the messages that the loop takes, without the one it ends on. */
  function TakenSegments(s: Setting, verdicts: seq<FileResponse>, msgs: seq<Message>): seq<Segment> {
    var n := Taken(s, verdicts, msgs);
    Segments(msgs[..if Received(s, verdicts, msgs).status == Running || n == 0 then n else n - 1]).1
  }

  predicate Brings(s: Setting, segment: Segment, d: Delivery) {
    Accepts(s, segment.head, d.id) && segment.parts == d.parts
  }

  lemma {:induction false} BroughtIff(s: Setting, segments: seq<Segment>, d: Delivery)
    ensures d in Deliveries(s, segments) <==> exists i :: 0 <= i < |segments| && Brings(s, segments[i], d)
    decreases |segments|
  {
    if segments != [] {
      var n := |segments| - 1;
      BroughtIff(s, segments[..n], d);
      assert segments == segments[..n] + [segments[n]];
    }
  }

  /** Against any peer and for any stream of messages: a file reaches the application if and only if a segment brings it,
      with the header of an offered file and the token given out for it. */
  lemma DeliveredIff(s: Setting, verdicts: seq<FileResponse>, msgs: seq<Message>, d: Delivery)
    ensures d in Received(s, verdicts, msgs).delivered <==>
            var segments := TakenSegments(s, verdicts, msgs);
            exists i :: 0 <= i < |segments| && Brings(s, segments[i], d)
  {
    LoopConserves(s, verdicts, msgs);
    BroughtIff(s, TakenSegments(s, verdicts, msgs), d);
    assert msgs[..|msgs|] == msgs;
  }

  lemma {:induction false} ReportIff(s: Setting, lead: seq<bytes>, segments: seq<Segment>, error: FileError)
    requires error.reason != MissingHeader
    ensures error in Reports(s, lead, segments) <==>
            exists i :: 0 <= i < |segments| && Refuses(s, segments[i].head, error)
    decreases |segments|
  {
    if segments != [] {
      var n := |segments| - 1;
      ReportIff(s, lead, segments[..n], error);
      assert segments == segments[..n] + [segments[n]];
      FaultIff(s, segments[n].head, error);
    }
  }

  lemma FaultIff(s: Setting, msg: Message, error: FileError)
    ensures Refuses(s, msg, error) <==>
            var header := s.serde.header.decode(msg.data);
            header.Some? && !Opens(s, msg) && error == Fault(s, header.value)
  {
  }

  /** Likewise, a file is reported as refused if and only if a segment begins with its header and exactly this is wrong
      with it. */
  lemma RefusedIff(s: Setting, verdicts: seq<FileResponse>, msgs: seq<Message>, error: FileError)
    requires error.reason != MissingHeader
    ensures error in Received(s, verdicts, msgs).errors <==>
            var segments := TakenSegments(s, verdicts, msgs);
            exists i :: 0 <= i < |segments| && Refuses(s, segments[i].head, error)
  {
    LoopConserves(s, verdicts, msgs);
    var n := Taken(s, verdicts, msgs);
    var m := if Received(s, verdicts, msgs).status == Running then n else n - 1;
    ReportIff(s, Segments(msgs[..m]).0, TakenSegments(s, verdicts, msgs), error);
    assert msgs[..|msgs|] == msgs;
  }

  /** What the peer is told about the files it sent: about each finished one, in order, whether it was taken, and if not,
      why. */
  lemma VerdictsAnswered(s: Setting, verdicts: seq<FileResponse>, msgs: seq<Message>)
    ensures var loop := Received(s, verdicts, msgs);
            && |loop.delivered| == |loop.responses| + (if loop.open.Some? then 1 else 0)
            && forall i :: 0 <= i < |loop.responses| ==>
                 var response := loop.responses[i];
                 && response.id == loop.delivered[i].id
                 && (response.success <==> i < |verdicts| && verdicts[i].success)
                 && response.error == (if response.success then None
                                       else if i >= |verdicts| then Some("Failed to receive file result")
                                       else if verdicts[i].error == None then Some("Unknown error")
                                       else verdicts[i].error)
  {
    LoopConserves(s, verdicts, msgs);
  }

  lemma AllTaken(s: Setting, verdicts: seq<FileResponse>, msgs: seq<Message>)
    requires msgs != [] && Received(s, verdicts, msgs[..|msgs| - 1]).status == Running
    ensures var loop := Received(s, verdicts, msgs);
            && Accounted(loop) == BinaryCount(msgs)
            && if loop.status == Running then Balanced(s, verdicts, Segments(msgs).0, Segments(msgs).1, loop)
               else var (lead, segments) := Segments(msgs[..|msgs| - 1]);
                    Settled(s, verdicts, lead, segments, msgs[|msgs| - 1], loop)
  {
    hide Settled, Balanced;
    var init, last := msgs[..|msgs| - 1], msgs[|msgs| - 1];
    assert msgs == init + [last];
    EndAnswersAll(s, verdicts, init, last);
    BinariesAccounted(s, verdicts, init);
    OpenIsDelivered(s, verdicts, init);
    TurnAccounts(s, NextVerdict(verdicts, Received(s, verdicts, init)), Received(s, verdicts, init), last);
    if Received(s, verdicts, msgs).status == Running {
      RunningConserves(s, verdicts, msgs);
    }
  }

  lemma OpenIsDelivered(s: Setting, verdicts: seq<FileResponse>, msgs: seq<Message>)
    requires Received(s, verdicts, msgs).status == Running
    ensures Received(s, verdicts, msgs).open.Some? ==> Received(s, verdicts, msgs).delivered != []
  {
    RunningConserves(s, verdicts, msgs);
  }

  function Accounted(loop: Loop): nat {
    Forwarded(loop.delivered) + Missing(loop.errors)
  }

  /** Every binary message is accounted for exactly once: forwarded to an open file or reported as headerless. */
  lemma {:induction false} BinariesAccounted(s: Setting, verdicts: seq<FileResponse>, msgs: seq<Message>)
    requires Received(s, verdicts, msgs).status == Running
    ensures Accounted(Received(s, verdicts, msgs)) == BinaryCount(msgs)
    decreases |msgs|
  {
    if msgs != [] {
      var n := |msgs| - 1;
      BinariesAccounted(s, verdicts, msgs[..n]);
      RunningConserves(s, verdicts, msgs[..n]);
      var loop := Received(s, verdicts, msgs[..n]);
      TurnAccounts(s, NextVerdict(verdicts, loop), loop, msgs[n]);
    }
  }

  lemma TurnAccounts(s: Setting, verdict: Option<FileResponse>, loop: Loop, msg: Message)
    requires loop.open.Some? ==> loop.delivered != []
    ensures Accounted(Turn(s, verdict, loop, msg)) == Accounted(loop) + (if msg.isString then 0 else 1)
  {
    if msg.isString {
      match ReadHeader(s, msg)
      case Unparsable =>
      case Refused(error) =>
        MissingSnoc(loop.errors, error);
      case Opened(id) =>
        assert (loop.delivered + [Delivery(id, [])])[..|loop.delivered|] == loop.delivered;
    } else if loop.open.Some? {
      var n := |loop.delivered| - 1;
      assert Forward(loop.delivered, msg.data)[..n] == loop.delivered[..n];
    } else {
      MissingSnoc(loop.errors, HEADERLESS);
    }
  }

  function BinaryCount(msgs: seq<Message>): nat
    decreases |msgs|
  {
    if msgs == [] then 0
    else BinaryCount(msgs[..|msgs| - 1]) + (if msgs[|msgs| - 1].isString then 0 else 1)
  }

  function Forwarded(delivered: seq<Delivery>): nat
    decreases |delivered|
  {
    if delivered == [] then 0
    else Forwarded(delivered[..|delivered| - 1]) + |delivered[|delivered| - 1].parts|
  }

  function Missing(errors: seq<FileError>): nat
    decreases |errors|
  {
    if errors == [] then 0
    else Missing(errors[..|errors| - 1]) + (if errors[|errors| - 1].reason == MissingHeader then 1 else 0)
  }

  lemma MissingSnoc(errors: seq<FileError>, error: FileError)
    ensures Missing(errors + [error]) == Missing(errors) + (if error.reason == MissingHeader then 1 else 0)
  {
    assert (errors + [error])[..|errors|] == errors;
  }
}
