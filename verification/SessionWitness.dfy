/** A run that completes, for every pair of honest devices that can have one. */
module SessionWitness {
  import opened Basics
  import opened Framing
  import opened Handshake
  import opened Protocol
  import opened PinCheck
  import opened FileLoop
  import opened FileFlow
  import opened Session
  import opened SessionInvariant
  import opened SessionTheorems
  import opened SessionReach
  import S = Sending
  import R = Receiving

  ghost predicate Reachable(w: World, g: State) {
    exists moves: seq<Move> :: Run(w, moves) == Some(g)
  }

  /** A state in which neither task has anything left to send. */
  function Quiet(s: S.Task, r: R.Task, toR: seq<Message>, toS: seq<Message>): State {
    State(s, [], r, [], toR, toS)
  }

  lemma Reach(w: World, g: State, move: Move)
    requires Reachable(w, g) && Enabled(g, move)
    ensures Reachable(w, Next(w, g, move))
  {
    hide Next, Enabled;
    var moves: seq<Move> :| Run(w, moves) == Some(g);
    assert (moves + [move])[..|moves|] == moves;
    assert Run(w, moves + [move]) == Some(Next(w, g, move));
  }

  lemma {:induction false} Flush(w: World, g: State)
    requires Reachable(w, g)
    ensures Reachable(w, Quiet(g.s, g.r, g.toR + g.sOut, g.toS + g.rOut))
    decreases |g.sOut| + |g.rOut|
  {
    hide Reachable;
    if g.sOut != [] {
      Reach(w, g, SenderEmits);
      assert g.toR + [g.sOut[0]] + g.sOut[1..] == g.toR + g.sOut;
      Flush(w, Next(w, g, SenderEmits));
    } else if g.rOut != [] {
      Reach(w, g, ReceiverEmits);
      assert g.toS + [g.rOut[0]] + g.rOut[1..] == g.toS + g.rOut;
      Flush(w, Next(w, g, ReceiverEmits));
    } else {
      assert g.toR + [] == g.toR && g.toS + [] == g.toS;
      assert g == Quiet(g.s, g.r, g.toR + g.sOut, g.toS + g.rOut);
    }
  }

  lemma SenderHears(w: World, s: S.Task, r: R.Task, toR: seq<Message>, msg: Message, toS: seq<Message>)
    requires Reachable(w, Quiet(s, r, toR, [msg] + toS)) && S.Listening(s)
    ensures var step := S.OnMessage(w.sender, w.files, s, msg);
            Reachable(w, Quiet(step.task, r, toR + step.out, toS))
  {
    hide Reachable, S.OnMessage;
    var g := Quiet(s, r, toR, [msg] + toS);
    Unfold(msg, toS);
    Reach(w, g, SenderTakes);
    Flush(w, Next(w, g, SenderTakes));
    assert toS + [] == toS;
  }

  lemma ReceiverHears(w: World, s: S.Task, r: R.Task, msg: Message, toR: seq<Message>, toS: seq<Message>)
    requires Reachable(w, Quiet(s, r, [msg] + toR, toS)) && R.Listening(r)
    ensures var step := R.OnMessage(w.receiver, r, msg);
            Reachable(w, Quiet(s, step.task, toR, toS + step.out))
  {
    hide Reachable, R.OnMessage;
    var g := Quiet(s, r, [msg] + toR, toS);
    Unfold(msg, toR);
    Reach(w, g, ReceiverTakes);
    Flush(w, Next(w, g, ReceiverTakes));
    assert toR + [] == toR;
  }

  lemma SenderDoes(w: World, s: S.Task, r: R.Task, toR: seq<Message>, toS: seq<Message>, a: S.Action)
    requires Reachable(w, Quiet(s, r, toR, toS)) && S.CanAct(s, a)
    ensures var step := S.OnAction(w.sender, s, a);
            Reachable(w, Quiet(step.task, r, toR + step.out, toS))
  {
    hide Reachable, S.OnAction;
    var g := Quiet(s, r, toR, toS);
    Reach(w, g, SenderActs(a));
    Flush(w, Next(w, g, SenderActs(a)));
    assert toS + [] == toS;
  }

  lemma ReceiverDoes(w: World, s: S.Task, r: R.Task, toR: seq<Message>, toS: seq<Message>, a: R.Action)
    requires Reachable(w, Quiet(s, r, toR, toS)) && R.CanAct(r, a)
    ensures var step := R.OnAction(w.receiver, r, a);
            Reachable(w, Quiet(s, step.task, toR, toS + step.out))
  {
    hide Reachable, R.OnAction;
    var g := Quiet(s, r, toR, toS);
    Reach(w, g, ReceiverActs(a));
    Flush(w, Next(w, g, ReceiverActs(a)));
    assert toR + [] == toR;
  }

  // ---- Chunked strings --------------------------------------------------------------------------

  lemma {:induction false} ReceiverCollectsStatus(w: World, s: S.Task, r: R.Task, msgs: seq<Message>, payload: bytes)
    requires r.stage.AwaitStatus? && Rest(r.stage.buffer, msgs, payload) && Reachable(w, Quiet(s, r, msgs, []))
    requires R.OnStatus(w.receiver, r, payload).out == []
    ensures Reachable(w, Quiet(s, R.OnStatus(w.receiver, r, payload).task, [], []))
    decreases |msgs|
  {
    hide Reachable;
    var msg, rest := msgs[0], msgs[1..];
    assert msgs == [msg] + rest;
    ReceiverHears(w, s, r, msg, rest, []);
    assert [] + R.OnMessage(w.receiver, r, msg).out == R.OnMessage(w.receiver, r, msg).out;
    if !msg.isString {
      ReceiverCollectsStatus(w, s, r.(stage := R.AwaitStatus(r.stage.buffer + msg.data)), rest, payload);
    }
  }

  lemma {:induction false} ReceiverCollectsVerdict(w: World, s: S.Task, r: R.Task, msgs: seq<Message>, payload: bytes)
    requires r.stage.AwaitVerdict? && Rest(r.stage.buffer, msgs, payload) && Reachable(w, Quiet(s, r, msgs, []))
    requires R.OnVerdict(w.receiver, r, payload).out == []
    ensures Reachable(w, Quiet(s, R.OnVerdict(w.receiver, r, payload).task, [], []))
    decreases |msgs|
  {
    hide Reachable;
    var msg, rest := msgs[0], msgs[1..];
    assert msgs == [msg] + rest;
    ReceiverHears(w, s, r, msg, rest, []);
    assert [] + R.OnMessage(w.receiver, r, msg).out == R.OnMessage(w.receiver, r, msg).out;
    if !msg.isString {
      ReceiverCollectsVerdict(w, s, r.(stage := R.AwaitVerdict(r.stage.buffer + msg.data)), rest, payload);
    }
  }

  lemma {:induction false} SenderCollectsSelection(w: World, s: S.Task, r: R.Task, msgs: seq<Message>, payload: bytes)
    requires s.stage.AwaitSelection? && Rest(s.stage.buffer, msgs, payload) && Reachable(w, Quiet(s, r, [], msgs))
    requires S.OnSelection(w.sender, s, payload).out == []
    ensures Reachable(w, Quiet(S.OnSelection(w.sender, s, payload).task, r, [], []))
    decreases |msgs|
  {
    hide Reachable;
    var msg, rest := msgs[0], msgs[1..];
    assert msgs == [msg] + rest;
    SenderHears(w, s, r, [], msg, rest);
    assert [] + S.OnMessage(w.sender, w.files, s, msg).out == S.OnMessage(w.sender, w.files, s, msg).out;
    if !msg.isString {
      SenderCollectsSelection(w, s.(stage := S.AwaitSelection(s.stage.buffer + msg.data)), r, rest, payload);
    }
  }

  // ---- The way to the file list -----------------------------------------------------------------

  lemma NoncesExchanged(w: World) returns (s: S.Task, r: R.Task)
    requires w.Honest()
    ensures s.stage == S.AwaitToken(w.Nonce()) && r.stage == R.AwaitToken(w.Nonce())
    ensures Reachable(w, Quiet(s, r, [TokenRequestText(w)], []))
  {
    hide Reachable, OwnToken, TokenRequestText, NonceText, S.OnNonce, R.OnNonce;
    var g := Begin(w);
    BeginReachable(w);
    Flush(w, g);
    assert g.toR + g.sOut == [NonceText(w.sender)] + [] && g.toS + g.rOut == [];
    NoncesRead(w, g.s, g.r);
    ReceiverHears(w, g.s, g.r, NonceText(w.sender), [], []);
    r := g.r.(stage := R.AwaitToken(w.Nonce()));
    assert [] + [NonceText(w.receiver)] == [NonceText(w.receiver)] + [];
    SenderHears(w, g.s, r, [], NonceText(w.receiver), []);
    s := g.s.(stage := S.AwaitToken(w.Nonce()));
    assert [] + [TokenRequestText(w)] == [TokenRequestText(w)];
  }

  lemma BeginReachable(w: World)
    ensures Reachable(w, Begin(w))
  {
    assert Run(w, []) == Some(Begin(w));
  }

  /** Up to the sender's own challenge. */
  lemma ReceiverSatisfied(w: World) returns (s: S.Task, r: R.Task)
    requires w.Honest() && Passable(w)
    ensures r.stage == R.AwaitStatus([])
    ensures var step := S.Challenge(w.sender, w.files, s);
            Reachable(w, Quiet(step.task, r, step.out, []))
  {
    hide Reachable, OwnToken, Trust, TokenRequestText, TokenResponseText, S.OnToken, R.OnToken, S.Challenge,
         S.OnPinReply, R.OnPin;
    s, r := NoncesExchanged(w);
    TokenRequestRead(w, r);
    assert [TokenRequestText(w)] == [TokenRequestText(w)] + [];
    ReceiverHears(w, s, r, TokenRequestText(w), [], []);
    r := R.OnToken(w.receiver, r, w.Nonce(), TokenRequestText(w)).task;
    assert [] + [TokenResponseText(w)] == [TokenResponseText(w)] + [];
    TokenResponseRead(w, s);
    SenderHears(w, s, r, [], TokenResponseText(w), []);
    if w.receiver.pin.None? {
      assert [] + S.Challenge(w.sender, w.files, s).out == S.Challenge(w.sender, w.files, s).out;
    } else {
      s := s.(stage := S.EnterPin);
      assert var none: seq<Message> := []; none + none == none;
      s := PinSupplied(w, s, r);
      r := r.(stage := R.AwaitStatus([]));
    }
  }

  lemma PinSupplied(w: World, s: S.Task, r: R.Task) returns (s': S.Task)
    requires w.Honest() && Passable(w) && w.receiver.pin.Some?
    requires s.stage == S.EnterPin && r.stage == R.AwaitPin(0) && Reachable(w, Quiet(s, r, [], []))
    ensures var step := S.Challenge(w.sender, w.files, s');
            Reachable(w, Quiet(step.task, r.(stage := R.AwaitStatus([])), step.out, []))
  {
    hide Reachable, OwnToken, Trust, S.Challenge;
    var pin := w.receiver.pin.value.pin;
    SenderDoes(w, s, r, [], [], S.Enter(pin));
    s' := s.(entered := s.entered + [pin], stage := S.AwaitPinReply);
    var text := Text(w.sender.serde.pin.encode(PinMessage(pin)));
    assert [] + [text] == [text] + [];
    Decodes(w.sender.serde.pin, PinMessage(pin));
    ReceiverHears(w, s', r, text, [], []);
    var r' := r.(stage := R.AwaitStatus([]));
    var reply := R.PinReply(w.receiver, PinOk)[0];
    assert R.OnMessage(w.receiver, r, text) == R.Step(r', [reply]);
    assert [] + [reply] == [reply] + [];
    Decodes(w.sender.serde.pinReceiving, PinOk);
    SenderHears(w, s', r', [], reply, []);
    assert [] + S.Challenge(w.sender, w.files, s').out == S.Challenge(w.sender, w.files, s').out;
  }

  ghost predicate Shows(w: World, s: S.Task, r: R.Task) {
    && s.stage == S.AwaitSelection([]) && r.stage.Select?
    && r.setting == Setting(w.receiver.serde, w.files, map[])
  }

  lemma ListShown(w: World) returns (s: S.Task, r: R.Task)
    requires w.Honest() && Viable(w)
    ensures Shows(w, s, r) && Reachable(w, Quiet(s, r, [], []))
  {
    hide Reachable, OwnToken, Trust;
    s, r := ReceiverSatisfied(w);
    var step := S.Challenge(w.sender, w.files, s);
    StatusDecodes(w);
    if w.sender.pin.None? || w.sender.pin.value.pin == "" {
      FramedIsRest(Listing(w));
      ReceiverCollectsStatus(w, step.task, r, step.out, Listing(w));
      s, r := step.task, R.OnStatus(w.receiver, r, Listing(w)).task;
    } else {
      var required := w.sender.serde.pinSending.encode(ListPinRequired);
      FramedIsRest(required);
      ReceiverCollectsStatus(w, step.task, r, step.out, required);
      s, r := PinReturned(w, step.task, R.OnStatus(w.receiver, r, required).task);
    }
  }

  lemma PinReturned(w: World, s: S.Task, r: R.Task) returns (s': S.Task, r': R.Task)
    requires w.Honest() && w.sender.pin.Some?
    requires s.stage == S.AwaitPin(0) && r.stage == R.EnterPin && Reachable(w, Quiet(s, r, [], []))
    ensures Shows(w, s', r') && Reachable(w, Quiet(s', r', [], []))
  {
    hide Reachable, OwnToken, Trust;
    var pin := w.sender.pin.value.pin;
    ReceiverDoes(w, s, r, [], [], R.Enter(pin));
    r' := r.(entered := r.entered + [pin], stage := R.AwaitVerdict([]));
    var text := Text(w.receiver.serde.pin.encode(PinMessage(pin)));
    assert [] + [text] == [text] + [];
    Decodes(w.receiver.serde.pin, PinMessage(pin));
    SenderHears(w, s, r', [], text, []);
    s' := s.(stage := S.AwaitSelection([]), listed := true);
    assert S.OnMessage(w.sender, w.files, s, text) == S.Step(s', Framed(Listing(w)));
    assert [] + Framed(Listing(w)) == Framed(Listing(w));
    FramedIsRest(Listing(w));
    StatusDecodes(w);
    ReceiverCollectsVerdict(w, s', r', Framed(Listing(w)), Listing(w));
    r' := R.OnVerdict(w.receiver, r', Listing(w)).task;
  }

  /** The receiving user can get to see the file list exactly if both tokens are accepted and neither PIN defeats its
      own challenge. */
  lemma ListShownIff(w: World)
    requires w.Honest()
    ensures Viable(w) <==> exists g :: Reachable(w, g) && g.r.stage.Select?
  {
    if Viable(w) {
      var s, r := ListShown(w);
      var g := Quiet(s, r, [], []);
      assert Reachable(w, g) && g.r.stage.Select?;
    }
    forall g | Reachable(w, g) && g.r.stage.Select? ensures Viable(w) {
      var moves: seq<Move> :| Run(w, moves) == Some(g);
      ShownOnlyIfViable(w, moves, g);
    }
  }

  // ---- The way to the end -----------------------------------------------------------------------

  lemma SelectionSent(w: World, s: S.Task, r: R.Task, tokens: map<string, string>) returns (s': S.Task, r': R.Task)
    requires w.Honest() && Shows(w, s, r) && Reachable(w, Quiet(s, r, [], []))
    ensures s'.stage.NextFile? && s'.tokens == tokens
    ensures r'.stage.Files? && r'.setting == Setting(w.receiver.serde, w.files, tokens) && r'.loop == INITIAL
    ensures Reachable(w, Quiet(s', r', [], []))
  {
    hide Reachable, OwnToken, Trust;
    ReceiverDoes(w, s, r, [], [], R.Choose(Some(tokens)));
    var payload := w.receiver.serde.fileList.encode(SelectionOk(tokens));
    r' := R.OnChoice(w.receiver, r, Some(tokens)).task;
    assert [] + Framed(payload) == Framed(payload);
    FramedIsRest(payload);
    Decodes(w.sender.serde.fileList, SelectionOk(tokens));
    SenderCollectsSelection(w, s, r', Framed(payload), payload);
    s' := s.(tokens := tokens, stage := S.NextFile);
  }

  /** One empty file with the given identifier, and the end of the queue. */
  lemma FileSent(w: World, s: S.Task, r: R.Task, id: string) returns (s': S.Task, r': R.Task)
    requires w.Honest() && s.stage.NextFile? && s.tokens == map[id := id] && IsOffered(w.files, id)
    requires r.stage.Files? && r.setting == Setting(w.receiver.serde, w.files, s.tokens) && r.loop == INITIAL
    requires Reachable(w, Quiet(s, r, [], []))
    ensures s'.stage.AwaitLast? && r'.stage == R.AwaitUser(DELIMITER)
    ensures r'.loop == INITIAL.(open := Some(id), delivered := [Delivery(id, [])])
    ensures Reachable(w, Quiet(s', r', [], []))
  {
    hide Reachable, OwnToken, Trust;
    var header := FileHeader(id, id);
    var text := Text(w.sender.serde.header.encode(header));
    Decodes(w.sender.serde.header, header);
    SenderDoes(w, s, r, [], [], S.Queue(id));
    s' := S.OnAction(w.sender, s, S.Queue(id)).task;
    assert [] + [text] == [text] + [];
    ReceiverHears(w, s', r, text, [], []);
    assert ReadHeader(r.setting, text) == Opened(id);
    r' := r.(loop := INITIAL.(open := Some(id), delivered := [Delivery(id, [])]));
    assert R.OnMessage(w.receiver, r, text) == R.Step(r', []);
    assert var none: seq<Message> := []; none + none == none;
    SenderDoes(w, s', r', [], [], S.Eof);
    s' := s'.(stage := S.NextFile);
    SenderDoes(w, s', r', [], [], S.Close);
    s' := s'.(stage := S.AwaitLast);
    assert [] + [DELIMITER] == [DELIMITER] + [];
    ReceiverHears(w, s', r', DELIMITER, [], []);
    r' := r'.(stage := R.AwaitUser(DELIMITER));
  }

  predicate Completed(g: State) {
    g.s.stage == S.Ended(Finished) && g.r.stage == R.Ended(Finished)
  }

  lemma Completes(w: World) returns (g: State)
    requires w.Honest() && Viable(w) && w.files != []
    ensures Reachable(w, g) && Completed(g)
  {
    hide Reachable, OwnToken, Trust;
    var s, r := ListShown(w);
    var id := w.files[0].id;
    s, r := SelectionSent(w, s, r, map[id := id]);
    s, r := FileSent(w, s, r, id);
    var result := Some(FileResponse(id, true, None));
    ReceiverDoes(w, s, r, [], [], R.Verdict(result));
    var step := R.OnResult(w.receiver, r, id, DELIMITER, result);
    assert [] + step.out == step.out == [step.out[0]] + [];
    SenderHears(w, s, step.task, [], step.out[0], []);
    assert var none: seq<Message> := []; none + none == none;
    g := Quiet(s.(stage := S.Ended(Finished)), step.task, [], []);
  }

  /** A session can complete on both sides exactly if the file list can be shown and is not empty. */
  lemma CompletesIff(w: World)
    requires w.Honest()
    ensures Viable(w) && w.files != [] <==> exists g :: Reachable(w, g) && Completed(g)
  {
    hide OwnToken, Trust, Agree;
    if Viable(w) && w.files != [] {
      var g := Completes(w);
      assert Reachable(w, g) && Completed(g);
    }
    forall g | Reachable(w, g) && Completed(g) ensures Viable(w) && w.files != [] {
      var moves: seq<Move> :| Run(w, moves) == Some(g);
      ShownOnlyIfViable(w, moves, g);
      RunInv(w, moves, g);
      Endings(w, g.s, g.r, g.toR + g.sOut, g.toS + g.rOut);
    }
  }

  // ---- The ways to fail -------------------------------------------------------------------------

  /** The sender closes its queue without a file, and the receiver takes the delimiter for a header. */
  lemma LeavesUnanswered(w: World) returns (g: State)
    requires w.Honest() && Viable(w)
    ensures Reachable(w, g) && Unanswered(w, g)
  {
    hide Reachable, OwnToken, Trust;
    var s, r := ListShown(w);
    s, r := SelectionSent(w, s, r, map[]);
    SenderDoes(w, s, r, [], [], S.Close);
    assert [] + [DELIMITER] == [DELIMITER] + [];
    var s' := s.(stage := S.AwaitLast);
    assert w.receiver.serde.header.decode(DELIMITER.data) == None;
    ReceiverHears(w, s', r, DELIMITER, [], []);
    var step := R.OnMessage(w.receiver, r, DELIMITER);
    assert step == R.Step(r.(stage := R.Ended(ProtocolError), loop := INITIAL.(status := Broken)), []);
    assert var none: seq<Message> := []; none + none == none;
    g := Quiet(s', step.task, [], []);
    NothingAnnounced(w, g);
  }

  lemma NothingAnnounced(w: World, g: State)
    requires w.Honest() && Viable(w) && Reachable(w, g)
    requires g.s.stage.AwaitLast? && g.r.stage == R.Ended(ProtocolError)
    ensures !LastOffered(w.files, g.s.sent)
  {
    hide Run, OwnToken, Trust, Agree;
    var moves: seq<Move> :| Run(w, moves) == Some(g);
    NeverMisread(w, moves, g);
  }

  /** A sender can be left waiting for an answer by a receiver that took the end of the queue for a header exactly if the
      file list can be shown. */
  lemma UnansweredIff(w: World)
    requires w.Honest() && !w.EmptyPin()
    ensures Viable(w) <==> exists g :: Reachable(w, g) && Unanswered(w, g)
  {
    hide Trust, OwnToken, Agree, Reachable, Unanswered;
    if Viable(w) {
      var g := LeavesUnanswered(w);
    }
    forall g | Reachable(w, g) && Unanswered(w, g) ensures Viable(w) {
      QueueNeedsViable(w, g);
    }
  }

  lemma QueueNeedsViable(w: World, g: State)
    requires w.Honest() && !w.EmptyPin() && Reachable(w, g) && Unanswered(w, g)
    ensures Viable(w)
  {
    hide Run, Trust, OwnToken, Agree;
    var moves: seq<Move> :| Run(w, moves) == Some(g);
    AdmittedTrusts(w, moves, g);
    RunInv(w, moves, g);
    WaitingWon(w, g.s, g.r, g.toR + g.sOut, g.toS + g.rOut);
  }

  lemma WaitingWon(w: World, s: S.Task, r: R.Task, W: seq<Message>, V: seq<Message>)
    requires Agree(w, s, r, W, V) && s.stage.AwaitLast?
    ensures Won(w.receiver.pin, s.entered) && Won(w.sender.pin, r.entered)
  {
  }

  /** The receiver took the sender's token, and waits for what the sender will not send. */
  lemma LeavesAbandoned(w: World) returns (g: State)
    requires w.Honest() && !w.EmptyPin() && w.ReceiverTrusts() && !w.SenderTrusts()
    requires w.receiver.pin.Some? ==> w.receiver.pin.value.maxTries > 0
    ensures Reachable(w, g) && Abandoned(w, g)
  {
    hide Reachable, OwnToken, Trust, TokenRequestText, TokenResponseText, S.OnToken, R.OnToken;
    var s, r := NoncesExchanged(w);
    TokenRequestRead(w, r);
    assert [TokenRequestText(w)] == [TokenRequestText(w)] + [];
    ReceiverHears(w, s, r, TokenRequestText(w), [], []);
    r := R.OnToken(w.receiver, r, w.Nonce(), TokenRequestText(w)).task;
    assert [] + [TokenResponseText(w)] == [TokenResponseText(w)] + [];
    TokenResponseRead(w, s);
    SenderHears(w, s, r, [], TokenResponseText(w), []);
    assert var none: seq<Message> := []; none + none == none;
    g := Quiet(s.(stage := S.Ended(BadSignature)), r, [], []);
  }

  /** A receiver can be left waiting by a sender that refused its token exactly if it took the sender's, and does not
      end by itself for lack of tries. */
  lemma AbandonedIff(w: World)
    requires w.Honest() && !w.EmptyPin()
    ensures w.ReceiverTrusts() && !w.SenderTrusts() && (w.receiver.pin.Some? ==> w.receiver.pin.value.maxTries > 0)
            <==> exists g :: Reachable(w, g) && Abandoned(w, g)
  {
    hide Trust, OwnToken, Agree, Reachable;
    if w.ReceiverTrusts() && !w.SenderTrusts() && (w.receiver.pin.Some? ==> w.receiver.pin.value.maxTries > 0) {
      var g := LeavesAbandoned(w);
    }
    forall g | Reachable(w, g) && Abandoned(w, g)
      ensures w.ReceiverTrusts() && (w.receiver.pin.Some? ==> w.receiver.pin.value.maxTries > 0)
    {
      AbandonedTrusts(w, g);
    }
  }

  lemma AbandonedTrusts(w: World, g: State)
    requires w.Honest() && !w.EmptyPin() && Reachable(w, g) && Abandoned(w, g)
    ensures w.ReceiverTrusts() && (w.receiver.pin.Some? ==> w.receiver.pin.value.maxTries > 0)
  {
    hide Run, OwnToken;
    var moves: seq<Move> :| Run(w, moves) == Some(g);
    RunInv(w, moves, g);
  }

  /** The sender gave up on its PIN, and the receiver takes that for an error, as it was never asked. */
  predicate Surprised(g: State) {
    g.s.stage == S.Ended(TooManyAttempts) && g.r.stage == R.Ended(ProtocolError)
  }

  lemma LeavesSurprised(w: World) returns (g: State)
    requires w.Honest() && Passable(w) && w.ZeroTries()
    ensures Reachable(w, g) && Surprised(g)
  {
    hide Reachable, OwnToken, Trust;
    var s, r := ReceiverSatisfied(w);
    var step := S.Challenge(w.sender, w.files, s);
    var tooMany := w.sender.serde.pinSending.encode(ListTooManyAttempts);
    StatusDecodes(w);
    FramedIsRest(tooMany);
    ReceiverCollectsStatus(w, step.task, r, step.out, tooMany);
    g := Quiet(step.task, R.OnStatus(w.receiver, r, tooMany).task, [], []);
  }

  /** Exactly if the sender's PIN allows no tries, and everything before it goes well. */
  lemma SurprisedIff(w: World)
    requires w.Honest() && !w.EmptyPin()
    ensures Passable(w) && w.ZeroTries() <==> exists g :: Reachable(w, g) && Surprised(g)
  {
    hide Trust, OwnToken, Agree, Reachable;
    if Passable(w) && w.ZeroTries() {
      var g := LeavesSurprised(w);
    }
    forall g | Reachable(w, g) && Surprised(g) ensures Passable(w) && w.ZeroTries() {
      SurprisedNeeds(w, g);
    }
  }

  lemma SurprisedNeeds(w: World, g: State)
    requires w.Honest() && !w.EmptyPin() && Reachable(w, g) && Surprised(g)
    ensures Passable(w) && w.ZeroTries()
  {
    hide Run, Trust, OwnToken, Agree;
    var moves: seq<Move> :| Run(w, moves) == Some(g);
    AdmittedTrusts(w, moves, g);
    RunInv(w, moves, g);
    SurprisedWon(w, g.s, g.r, g.toR + g.sOut, g.toS + g.rOut);
  }

  lemma SurprisedWon(w: World, s: S.Task, r: R.Task, W: seq<Message>, V: seq<Message>)
    requires Agree(w, s, r, W, V) && s.stage == S.Ended(TooManyAttempts) && r.stage == R.Ended(ProtocolError)
    ensures Won(w.receiver.pin, s.entered) && w.ZeroTries()
  {
  }
}
