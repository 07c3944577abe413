/** What every run of a session between two honest devices is entitled to. */
module SessionTheorems {
  import opened Basics
  import opened Chunking
  import opened Framing
  import opened Handshake
  import opened Model
  import opened Protocol
  import opened FileLoop
  import opened FileFlow
  import opened Reblocking
  import opened SenderRecord
  import opened Session
  import opened SessionInvariant
  import S = Sending
  import R = Receiving

  /** What the agreement says about the ways to end. */
  lemma Endings(w: World, s: S.Task, r: R.Task, W: seq<Message>, V: seq<Message>)
    requires Agree(w, s, r, W, V)
    ensures !s.stage.Pairing? && s.stage != S.Ended(ProtocolError) && s.stage != S.Ended(Crashed)
    ensures r.stage != R.Ended(Crashed)
    ensures r.stage == R.Ended(ProtocolError) ==>
              w.ZeroTries() || (QueueClosed(s) && !LastOffered(w.files, s.sent))
    ensures (s.stage.AwaitLast? || s.stage == S.Ended(Finished)) && r.stage.Ended? ==>
              r.stage.outcome == if LastOffered(w.files, s.sent) then Finished else ProtocolError
    ensures r.stage == R.Ended(Finished) ==>
              QueueClosed(s) && LastOffered(w.files, s.sent) && r.loop.delivered == Offered(w.files, s.sent)
  {
  }

  /** The devices never misread each other. The sender meets no message it does not expect and no pairing request; the
      receiver meets one only if the sender gave up on its PIN at once, or closed its queue while the last file it
      announced, if any, was none of those it had offered. */
  lemma NeverMisread(w: World, moves: seq<Move>, g: State)
    requires w.Honest() && !w.EmptyPin() && Run(w, moves) == Some(g)
    ensures !g.s.stage.Pairing? && g.s.stage != S.Ended(ProtocolError) && g.s.stage != S.Ended(Crashed)
    ensures g.r.stage != R.Ended(Crashed)
    ensures g.r.stage == R.Ended(ProtocolError) ==>
              w.ZeroTries() || (QueueClosed(g.s) && !LastOffered(w.files, g.s.sent))
  {
    hide Agree, Run;
    RunInv(w, moves, g);
    Endings(w, g.s, g.r, g.toR + g.sOut, g.toS + g.rOut);
  }

  /** Once the sender closed its queue, the receiver can end in one way only, decided by the last announced file. */
  lemma ReceiverEndsIff(w: World, moves: seq<Move>, g: State)
    requires w.Honest() && !w.EmptyPin() && Run(w, moves) == Some(g)
    requires g.s.stage.AwaitLast? || g.s.stage == S.Ended(Finished)
    requires g.r.stage.Ended?
    ensures g.r.stage.outcome == if LastOffered(w.files, g.s.sent) then Finished else ProtocolError
  {
    hide Agree, Run;
    RunInv(w, moves, g);
    Endings(w, g.s, g.r, g.toR + g.sOut, g.toS + g.rOut);
  }

  // ---- Progress ---------------------------------------------------------------------------------

  ghost predicate Stuck(g: State) {
    forall move: Move :: !Enabled(g, move)
  }

  predicate Flushed(g: State) {
    g.sOut == [] && g.rOut == []
  }

  predicate BothEnded(g: State) {
    g.s.stage.Ended? && g.r.stage.Ended?
  }

  /** The sender refused the receiver's token without telling it. */
  predicate Abandoned(w: World, g: State) {
    && g.s.stage == S.Ended(BadSignature) && !w.SenderTrusts()
    && g.r.stage in [R.AwaitPin(0), R.AwaitStatus([])]
  }

  /** The receiver ended without ever answering a file, and the sender waits for one last message. */
  predicate Unanswered(w: World, g: State) {
    && g.s.stage.AwaitLast? && g.toS == []
    && g.r.stage == R.Ended(ProtocolError) && !LastOffered(w.files, g.s.sent)
  }

  /** Some side can always take a step, or both have ended, except in the two situations named above. */
  lemma StuckIff(w: World, moves: seq<Move>, g: State)
    requires w.Honest() && !w.EmptyPin() && Run(w, moves) == Some(g)
    ensures Stuck(g) <==> Flushed(g) && (BothEnded(g) || Abandoned(w, g) || Unanswered(w, g))
  {
    RunInv(w, moves, g);
    if Flushed(g) && (BothEnded(g) || Abandoned(w, g) || Unanswered(w, g)) {
      EndedIsStuck(w, g);
    } else {
      CanStep(w, g);
    }
  }

  lemma EndedIsStuck(w: World, g: State)
    requires Inv(w, g) && Flushed(g) && (BothEnded(g) || Abandoned(w, g) || Unanswered(w, g))
    ensures Stuck(g)
  {
    assert g.toR + [] == g.toR;
  }

  lemma CanStep(w: World, g: State)
    requires Inv(w, g)
    requires !(Flushed(g) && (BothEnded(g) || Abandoned(w, g) || Unanswered(w, g)))
    ensures exists move :: Enabled(g, move)
  {
    if g.sOut != [] {
      assert Enabled(g, SenderEmits);
    } else if g.rOut != [] {
      assert Enabled(g, ReceiverEmits);
    } else {
      assert g.toR + [] == g.toR && g.toS + [] == g.toS;
      if S.Listening(g.s) && g.toS != [] {
        assert Enabled(g, SenderTakes);
      } else if R.Listening(g.r) && g.toR != [] {
        assert Enabled(g, ReceiverTakes);
      } else if g.s.stage.EnterPin? {
        assert Enabled(g, SenderActs(S.Enter("")));
      } else if g.s.stage.NextFile? {
        assert Enabled(g, SenderActs(S.Close));
      } else if g.s.stage.Streaming? {
        assert Enabled(g, SenderActs(S.Eof));
      } else {
        ReceiverCanAct(w, g.s, g.r, g.toR, g.toS);
        var a := SomeAction(g.r);
        assert Enabled(g, ReceiverActs(a));
      }
    }
  }

  function SomeAction(r: R.Task): R.Action {
    if r.stage.EnterPin? then R.Enter("")
    else if r.stage.Select? then R.Choose(None)
    else R.Verdict(None)
  }

  lemma ReceiverCanAct(w: World, s: S.Task, r: R.Task, W: seq<Message>, V: seq<Message>)
    requires Agree(w, s, r, W, V)
    requires S.Listening(s) ==> V == []
    requires R.Listening(r) ==> W == []
    requires !s.stage.EnterPin? && !s.stage.NextFile? && !s.stage.Streaming?
    requires !(s.stage.Ended? && r.stage.Ended?)
    requires !(s.stage == S.Ended(BadSignature) && !w.SenderTrusts() && r.stage in [R.AwaitPin(0), R.AwaitStatus([])])
    requires !(s.stage.AwaitLast? && V == [] && r.stage == R.Ended(ProtocolError) && !LastOffered(w.files, s.sent))
    ensures R.CanAct(r, SomeAction(r))
  {
  }

  // ---- The list, shown or not -------------------------------------------------------------------

  /** At which stages the sender's list is out. */
  predicate ListedAt(s: S.Task) {
    match s.stage
    case AwaitSelection(_) => s.listed
    case NextFile => s.listed
    case Streaming(_) => s.listed
    case AwaitLast => s.listed
    case Pairing => s.listed
    case Ended(Finished) => s.listed
    case Ended(Declined) => s.listed
    case Ended(ProtocolError) => true
    case _ => !s.listed
  }

  /** At which stages the list was shown to the receiving user. */
  predicate PublishedAt(r: R.Task) {
    match r.stage
    case Select => r.published && r.loop.status == Running
    case Files => r.published && r.loop.status == Running
    case AwaitUser(_) => r.published && r.loop.status == Running
    case Ended(Finished) => r.published
    case Ended(Declined) => r.published
    case Ended(ProtocolError) => r.published <==> r.loop.status == Broken
    case _ => !r.published && r.loop.status == Running
  }

  lemma SenderKeepsListed(w: World, s: S.Task, msg: Message)
    requires S.Listening(s) && ListedAt(s)
    ensures ListedAt(S.OnMessage(w.sender, w.files, s, msg).task)
  {
    hide Trust, OwnToken, ReadNonce;
  }

  lemma ReceiverKeepsPublished(w: World, r: R.Task, msg: Message)
    requires R.Listening(r) && PublishedAt(r)
    ensures PublishedAt(R.OnMessage(w.receiver, r, msg).task)
  {
    hide Trust, OwnToken, ReadNonce, Turn;
  }

  lemma ActionsKeepFlags(w: World, g: State)
    requires ListedAt(g.s) && PublishedAt(g.r)
    ensures forall a :: S.CanAct(g.s, a) ==> ListedAt(S.OnAction(w.sender, g.s, a).task)
    ensures forall a :: R.CanAct(g.r, a) ==> PublishedAt(R.OnAction(w.receiver, g.r, a).task)
  {
    hide Turn;
  }

  lemma {:induction false} RunFlags(w: World, moves: seq<Move>, g: State)
    requires Run(w, moves) == Some(g)
    ensures ListedAt(g.s) && PublishedAt(g.r)
    decreases |moves|
  {
    hide ListedAt, PublishedAt, S.OnMessage, S.OnAction, R.OnMessage, R.OnAction;
    if moves == [] {
      BeginFlags(w);
    } else {
      var n := |moves| - 1;
      var before := Run(w, moves[..n]).value;
      RunFlags(w, moves[..n], before);
      ActionsKeepFlags(w, before);
      match moves[n]
      case SenderTakes => SenderKeepsListed(w, before.s, before.toS[0]);
      case ReceiverTakes => ReceiverKeepsPublished(w, before.r, before.toR[0]);
      case _ =>
    }
  }

  lemma BeginFlags(w: World)
    ensures ListedAt(Begin(w).s) && PublishedAt(Begin(w).r)
  {
  }

  predicate GaveUp(s: S.Task) {
    s.stage == S.Ended(TooManyAttempts)
  }

  /** Where the receiver can be when the sender gives up for lack of tries, and when it is about to. */
  lemma GivingUp(w: World, s: S.Task, r: R.Task, W: seq<Message>, V: seq<Message>)
    requires Agree(w, s, r, W, V)
    ensures GaveUp(s) ==> !r.stage.Select?
    ensures r.stage == R.Ended(ProtocolError) ==> GaveUp(s) || QueueClosed(s)
  {
  }

  lemma GivesUpFrom(w: World, s: S.Task, msg: Message)
    requires S.Listening(s) && GaveUp(S.OnMessage(w.sender, w.files, s, msg).task)
    ensures !s.stage.AwaitLast?
  {
  }

  lemma PublishesAtSelect(w: World, g: State, move: Move)
    requires Enabled(g, move) && !g.r.published && Next(w, g, move).r.published
    ensures Next(w, g, move).r.stage.Select?
  {
    hide Trust, OwnToken, ReadNonce, Turn, S.OnMessage, S.OnAction;
  }

  lemma NextWithheld(w: World, g: State, move: Move)
    requires Inv(w, g) && Enabled(g, move) && Inv(w, Next(w, g, move)) && PublishedAt(g.r)
    requires GaveUp(g.s) ==> !g.r.published
    ensures GaveUp(Next(w, g, move).s) ==> !Next(w, g, move).r.published
  {
    hide Agree, PublishedAt, S.OnMessage, S.OnAction, R.OnMessage, R.OnAction;
    var g' := Next(w, g, move);
    GivingUp(w, g.s, g.r, g.toR + g.sOut, g.toS + g.rOut);
    GivingUp(w, g'.s, g'.r, g'.toR + g'.sOut, g'.toS + g'.rOut);
    if GaveUp(g'.s) && g'.r.published {
      if GaveUp(g.s) {
        PublishesAtSelect(w, g, move);
      } else {
        NotYetPublished(w, g, move);
      }
    }
  }

  /** The sender gives up only while the receiver still waits for the list, or has given up itself. */
  lemma NotYetPublished(w: World, g: State, move: Move)
    requires Inv(w, g) && Enabled(g, move) && Inv(w, Next(w, g, move)) && PublishedAt(g.r)
    requires !GaveUp(g.s) && GaveUp(Next(w, g, move).s)
    ensures !Next(w, g, move).r.published
  {
    hide S.OnMessage, S.OnAction, R.OnMessage, R.OnAction, Agree;
    var g' := Next(w, g, move);
    NoGivingUpByAction(w, g.s);
    GivesUpFrom(w, g.s, g.toS[0]);
    GivingUp(w, g.s, g.r, g.toR + g.sOut, g.toS + g.rOut);
    GaveUpWhere(w, g'.s, g'.r, g'.toR + g'.sOut, g'.toS + g'.rOut);
  }

  lemma NoGivingUpByAction(w: World, s: S.Task)
    ensures forall a :: S.CanAct(s, a) ==> !GaveUp(S.OnAction(w.sender, s, a).task)
  {
  }

  lemma GaveUpWhere(w: World, s: S.Task, r: R.Task, W: seq<Message>, V: seq<Message>)
    requires Agree(w, s, r, W, V) && GaveUp(s)
    ensures r.stage.AwaitStatus? || r.stage.AwaitVerdict? || r.stage == R.Ended(TooManyAttempts)
            || r.stage == R.Ended(ProtocolError)
  {
  }

  lemma {:induction false} RunWithheld(w: World, moves: seq<Move>, g: State)
    requires w.Honest() && !w.EmptyPin() && Run(w, moves) == Some(g) && GaveUp(g.s)
    ensures !g.r.published
    decreases |moves|
  {
    hide Inv, Next, PublishedAt, ListedAt;
    if moves != [] {
      var n := |moves| - 1;
      var before := Run(w, moves[..n]).value;
      RunInv(w, moves[..n], before);
      RunInv(w, moves, g);
      RunFlags(w, moves[..n], before);
      if GaveUp(before.s) {
        RunWithheld(w, moves[..n], before);
      }
      NextWithheld(w, before, moves[n]);
    }
  }

  // ---- The PIN challenges -----------------------------------------------------------------------

  /** The file list went out and was shown to the receiving user. */
  predicate ListShown(s: S.Task, r: R.Task) {
    s.listed && r.published
  }

  predicate ListWithheld(s: S.Task, r: R.Task) {
    !s.listed && !r.published
  }

  /** Both devices gave up for lack of tries. */
  predicate BothGaveUp(s: S.Task, r: R.Task) {
    s.stage == S.Ended(TooManyAttempts) && r.stage == R.Ended(TooManyAttempts)
  }

  /** The receiver's challenge, when nothing can move any more. If the right PIN was entered, it was the last one and in
      time, and both devices passed: the list was sent and shown, unless the sender's own challenge was lost after that,
      which then is the only reason to give up. Otherwise both gave up after all tries, with no reply unread and no list
      sent. */
  lemma ReceiverChallengeDecided(w: World, moves: seq<Move>, g: State, config: PinConfig)
    requires w.Honest() && w.SenderTrusts() && w.ReceiverTrusts() && Run(w, moves) == Some(g) && Stuck(g)
    requires w.receiver.pin == Some(config) && config.pin != "" && config.maxTries > 0
    ensures if config.pin in g.s.entered then
              && Won(w.receiver.pin, g.s.entered)
              && (ListShown(g.s, g.r) || (Lost(w.sender.pin, g.r.entered) && ListWithheld(g.s, g.r)))
              && (g.s.stage == S.Ended(TooManyAttempts) || g.r.stage == R.Ended(TooManyAttempts) ==>
                    Lost(w.sender.pin, g.r.entered))
            else
              && Lost(w.receiver.pin, g.s.entered) && BothGaveUp(g.s, g.r) && ListWithheld(g.s, g.r)
              && g.toS == [] && g.r.entered == []
  {
    hide Run, ListedAt, PublishedAt, Agree;
    RunInv(w, moves, g);
    RunFlags(w, moves, g);
    if GaveUp(g.s) {
      RunWithheld(w, moves, g);
    }
    StuckIff(w, moves, g);
    assert g.toR + [] == g.toR && g.toS + [] == g.toS;
    DecidedForReceiver(w, g.s, g.r, g.toR, g.toS, config);
  }

  lemma DecidedForReceiver(w: World, s: S.Task, r: R.Task, W: seq<Message>, V: seq<Message>, config: PinConfig)
    requires Agree(w, s, r, W, V) && w.SenderTrusts() && w.ReceiverTrusts()
    requires ListedAt(s) && PublishedAt(r) && (GaveUp(s) ==> !r.published)
    requires (s.stage.Ended? && r.stage.Ended?) || (s.stage.AwaitLast? && r.stage.Ended?)
    requires w.receiver.pin == Some(config) && config.pin != "" && config.maxTries > 0
    ensures if config.pin in s.entered then
              && Won(w.receiver.pin, s.entered)
              && (ListShown(s, r) || (Lost(w.sender.pin, r.entered) && ListWithheld(s, r)))
              && (s.stage == S.Ended(TooManyAttempts) || r.stage == R.Ended(TooManyAttempts) ==>
                    Lost(w.sender.pin, r.entered))
            else
              && Lost(w.receiver.pin, s.entered) && BothGaveUp(s, r) && ListWithheld(s, r)
              && V == [] && r.entered == []
  {
  }

  /** The sender's challenge, likewise, once the receiver's is out of the way. Passing it needs no reply of its own: the
      file list is the reply, and it was shown. */
  lemma SenderChallengeDecided(w: World, moves: seq<Move>, g: State, config: PinConfig)
    requires w.Honest() && !w.EmptyPin() && w.SenderTrusts() && w.ReceiverTrusts()
    requires Run(w, moves) == Some(g) && Stuck(g)
    requires w.sender.pin == Some(config) && config.pin != "" && config.maxTries > 0
    requires Won(w.receiver.pin, g.s.entered)
    ensures if config.pin in g.r.entered then
              && Won(w.sender.pin, g.r.entered) && ListShown(g.s, g.r)
              && g.s.stage != S.Ended(TooManyAttempts) && g.r.stage != R.Ended(TooManyAttempts)
            else
              && Lost(w.sender.pin, g.r.entered) && BothGaveUp(g.s, g.r) && ListWithheld(g.s, g.r)
              && g.toS == [] && g.toR == []
  {
    hide Run, ListedAt, PublishedAt, Agree;
    RunInv(w, moves, g);
    RunFlags(w, moves, g);
    if GaveUp(g.s) {
      RunWithheld(w, moves, g);
    }
    StuckIff(w, moves, g);
    assert g.toR + [] == g.toR && g.toS + [] == g.toS;
    DecidedForSender(w, g.s, g.r, g.toR, g.toS, config);
  }

  lemma DecidedForSender(w: World, s: S.Task, r: R.Task, W: seq<Message>, V: seq<Message>, config: PinConfig)
    requires Agree(w, s, r, W, V) && w.SenderTrusts() && w.ReceiverTrusts()
    requires ListedAt(s) && PublishedAt(r) && (GaveUp(s) ==> !r.published)
    requires (s.stage.Ended? && r.stage.Ended?) || (s.stage.AwaitLast? && r.stage.Ended?)
    requires w.sender.pin == Some(config) && config.pin != "" && config.maxTries > 0
    requires Won(w.receiver.pin, s.entered)
    ensures if config.pin in r.entered then
              && Won(w.sender.pin, r.entered) && ListShown(s, r)
              && s.stage != S.Ended(TooManyAttempts) && r.stage != R.Ended(TooManyAttempts)
            else
              && Lost(w.sender.pin, r.entered) && BothGaveUp(s, r) && ListWithheld(s, r) && V == [] && W == []
  {
  }

  // ---- File contents ----------------------------------------------------------------------------

  lemma {:induction false} RunRecorded(w: World, moves: seq<Move>, g: State)
    requires Run(w, moves) == Some(g)
    ensures Recorded(g.s)
    decreases |moves|
  {
    if moves != [] {
      var n := |moves| - 1;
      var before := Run(w, moves[..n]).value;
      RunRecorded(w, moves[..n], before);
      match moves[n]
      case SenderTakes => MessageKeepsRecord(w.sender, w.files, before.s, before.toS[0]);
      case SenderActs(a) => ActionKeepsRecord(w.sender, before.s, a);
      case _ =>
    }
  }

  /** The selected files among those offered: name and contents. */
  function OfferedFiles(files: seq<FileDto>, queued: seq<S.Queued>): seq<S.Queued>
    decreases |queued|
  {
    if queued == [] then []
    else
      var n := |queued| - 1;
      OfferedFiles(files, queued[..n]) + (if IsOffered(files, queued[n].id) then [queued[n]] else [])
  }

  lemma {:induction false} JoinedOffered(files: seq<FileDto>, delivered: seq<Delivery>)
    ensures Joined(Offered(files, delivered)) == OfferedFiles(files, Joined(delivered))
    decreases |delivered|
  {
    if delivered != [] {
      var n := |delivered| - 1;
      JoinedOffered(files, delivered[..n]);
      assert Joined(delivered)[..n] == Joined(delivered[..n]);
      assert Joined(delivered)[n] == S.Queued(delivered[n].id, Concat(delivered[n].parts));
    }
  }

  /** When the receiver is done, the files handed to its application are the queued files with a token, as far as they
      were offered, in order and octet by octet. */
  lemma FilesArriveIntact(w: World, moves: seq<Move>, g: State)
    requires w.Honest() && !w.EmptyPin() && Run(w, moves) == Some(g) && g.r.stage == R.Ended(Finished)
    ensures Joined(g.r.loop.delivered) == OfferedFiles(w.files, Selected(g.s.tokens, g.s.queued))
  {
    hide Agree, Run, Joined, OfferedFiles, Offered, Chunked, Selected;
    RunInv(w, moves, g);
    Endings(w, g.s, g.r, g.toR + g.sOut, g.toS + g.rOut);
    RunRecorded(w, moves, g);
    JoinedChunks(g.s.tokens, g.s.queued);
    JoinedOffered(w.files, g.s.sent);
  }

  lemma {:induction false} AllOffered(files: seq<FileDto>, tokens: map<string, string>, queued: seq<S.Queued>)
    requires forall id :: id in tokens ==> IsOffered(files, id)
    ensures OfferedFiles(files, Selected(tokens, queued)) == Selected(tokens, queued)
    decreases |queued|
  {
    if queued != [] {
      var n := |queued| - 1;
      AllOffered(files, tokens, queued[..n]);
      var selected := Selected(tokens, queued[..n]);
      assert (selected + [queued[n]])[..|selected|] == selected;
      assert selected + [] == selected;
    }
  }

  /** The blocks a receiving application is given for one delivered file. */
  function Blocks(delivery: Delivery): seq<bytes> {
    Reblock(delivery.parts, [])
  }

  /** With a selection among the offered files, nothing is filtered out; and what the application reads of each file
      are full blocks of its contents, only the last of which may be shorter. */
  lemma SelectionArrives(w: World, moves: seq<Move>, g: State)
    requires w.Honest() && !w.EmptyPin() && Run(w, moves) == Some(g) && g.r.stage == R.Ended(Finished)
    requires forall id :: id in g.s.tokens ==> IsOffered(w.files, id)
    ensures ReadAs(g.r.loop.delivered, Selected(g.s.tokens, g.s.queued))
    ensures g.r.loop.delivered != []
  {
    hide Agree, Run, Joined, OfferedFiles, Selected, Chunked;
    FilesArriveIntact(w, moves, g);
    AllOffered(w.files, g.s.tokens, g.s.queued);
    RunInv(w, moves, g);
    Endings(w, g.s, g.r, g.toR + g.sOut, g.toS + g.rOut);
    RunRecorded(w, moves, g);
    OfferedSubset(w.files, g.s.sent);
    forall d | d in g.r.loop.delivered ensures d.parts == Split(Concat(d.parts), CHUNK_SIZE) {
      ChunkedParts(g.s.tokens, g.s.queued, d);
    }
    JoinedIsReadAs(g.r.loop.delivered, Selected(g.s.tokens, g.s.queued));
  }

  /** File by file, the application reads the blocks of the queued contents. */
  ghost predicate ReadAs(delivered: seq<Delivery>, selected: seq<S.Queued>) {
    && |delivered| == |selected|
    && forall i :: 0 <= i < |selected| ==>
         delivered[i].id == selected[i].id && IsCut(Blocks(delivered[i]), selected[i].data, BUFFER_SIZE)
  }

  lemma JoinedIsReadAs(delivered: seq<Delivery>, selected: seq<S.Queued>)
    requires Joined(delivered) == selected
    requires forall d :: d in delivered ==> d.parts == Split(Concat(d.parts), CHUNK_SIZE)
    ensures ReadAs(delivered, selected)
  {
    forall i | 0 <= i < |selected|
      ensures delivered[i].id == selected[i].id && IsCut(Blocks(delivered[i]), selected[i].data, BUFFER_SIZE)
    {
      var data := Concat(delivered[i].parts);
      assert Joined(delivered)[i] == S.Queued(delivered[i].id, data);
      assert delivered[i] in delivered && delivered[i].parts == Split(data, CHUNK_SIZE);
      TwoStages([data]);
      assert Concat([data]) == data + Concat<byte>([]) == data;
    }
  }

  lemma {:induction false} OfferedSubset(files: seq<FileDto>, sent: seq<Delivery>)
    ensures forall d :: d in Offered(files, sent) ==> d in sent
    ensures LastOffered(files, sent) ==> Offered(files, sent) != []
    decreases |sent|
  {
    if sent != [] {
      OfferedSubset(files, sent[..|sent| - 1]);
    }
  }

  lemma {:induction false} ChunkedParts(tokens: map<string, string>, queued: seq<S.Queued>, d: Delivery)
    requires d in Chunked(tokens, queued)
    ensures d.parts == Split(Concat(d.parts), CHUNK_SIZE)
    decreases |queued|
  {
    var n := |queued| - 1;
    SplitIsCut(queued[n].data, CHUNK_SIZE);
    if d in Chunked(tokens, queued[..n]) {
      ChunkedParts(tokens, queued[..n], d);
    }
  }
}
