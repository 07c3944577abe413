/** Every move keeps the agreement between two honest devices. */
module SessionInvariant {
  import opened Basics
  import opened Framing
  import opened Handshake
  import opened Protocol
  import opened PinCheck
  import opened FileLoop
  import opened FileFlow
  import opened Session
  import S = Sending
  import R = Receiving
  import Chunking

  lemma Decodes<T(!new)>(json: Json<T>, t: T)
    requires Faithful(json)
    ensures json.decode(json.encode(t)) == Some(t) && |json.encode(t)| > 1
  {
    assert json.decode(json.encode(t)) == Some(t);
  }

  lemma Unfold(msg: Message, rest: seq<Message>)
    ensures ([msg] + rest)[0] == msg && ([msg] + rest)[1..] == rest && |[msg] + rest| == 1 + |rest|
  {
  }

  // ---- The sender takes a message ---------------------------------------------------------------

  lemma SenderTakesNonce(w: World, s: S.Task, r: R.Task, W: seq<Message>, msg: Message, V: seq<Message>)
    requires w.Honest() && s.stage.AwaitNonce? && AtNonce(w, s, r, W, [msg] + V)
    ensures var step := S.OnNonce(w.sender, s, msg);
            && step.task == s.(stage := S.AwaitToken(w.Nonce()))
            && AtToken(w, step.task, r, W + step.out, V)
  {
    hide OwnToken;
    Unfold(msg, V);
    NonceRoundTrip(w.receiver);
  }

  /** The sender's own challenge, seen from the receiver: what `JudgePin` sends is wholly under way. */
  lemma JudgeAgrees(w: World, s: S.Task, r: R.Task, config: PinConfig, remotePin: string, tries: nat)
    requires w.Honest() && Won(w.receiver.pin, s.entered)
    requires w.sender.pin == Some(config) && config.pin != "" && |r.entered| == tries
    requires if tries == 0 then remotePin == "" && r.stage == R.AwaitStatus([])
             else && r.stage == R.AwaitVerdict([]) && remotePin == r.entered[tries - 1]
                  && Wrong(w.sender.pin, r.entered[..tries - 1], tries - 1)
    ensures var step := S.JudgePin(w.sender, w.files, s, config, remotePin, tries);
            match Judge(config, remotePin, tries) {
              case Accept =>
                && step.task == s.(stage := S.AwaitSelection([]), listed := true)
                && AtSelection(w, step.task, r, step.out, [], [])
              case Exhausted =>
                && step.task == s.(stage := S.Ended(TooManyAttempts))
                && AtEnd(w, step.task, r, step.out, [], TooManyAttempts)
              case AskAgain =>
                && step.task == s.(stage := S.AwaitPin(tries))
                && AtAwaitPin(w, step.task, r, step.out, [], tries)
            }
  {
    hide Framed, Rest;
    FramedIsRest(Listing(w));
    FramedIsRest(w.sender.serde.pinSending.encode(ListTooManyAttempts));
    FramedIsRest(w.sender.serde.pinSending.encode(ListPinRequired));
    if tries > 0 {
      assert r.entered == r.entered[..tries - 1] + [remotePin];
    }
  }

  /** The sender has passed the receiver's challenge, if there was one, and turns to its own. */
  lemma ChallengeAgrees(w: World, s: S.Task, r: R.Task)
    requires w.Honest() && s.sent == []
    requires r.stage == R.AwaitStatus([]) && r.entered == [] && Won(w.receiver.pin, s.entered)
    ensures var step := S.Challenge(w.sender, w.files, s);
            Agree(w, step.task, r, step.out, [])
  {
    if w.sender.pin.Some? && w.sender.pin.value.pin != "" {
      JudgeAgrees(w, s, r, w.sender.pin.value, "", 0);
    } else {
      FramedIsRest(Listing(w));
      var step := S.Challenge(w.sender, w.files, s);
      assert AtSelection(w, step.task, r, step.out, [], []);
    }
  }

  /** How the sender reads the receiver's answer to its token. */
  lemma TokenResponseRead(w: World, s: S.Task)
    requires w.Honest()
    ensures S.OnToken(w.sender, w.files, s, w.Nonce(), R.TokenText(w.receiver, TokenInvalidSignature))
            == s.End(BadSignature)
    ensures S.OnToken(w.sender, w.files, s, w.Nonce(), TokenResponseText(w))
            == if !w.SenderTrusts() then s.End(BadSignature)
               else if w.receiver.pin.Some? then s.Go(S.EnterPin)
               else S.Challenge(w.sender, w.files, s)
  {
    hide OwnToken;
    var token := OwnToken(w.receiver, w.Nonce());
    Decodes(w.sender.serde.tokenResponse, TokenInvalidSignature);
    Decodes(w.sender.serde.tokenResponse, TokenOk(token));
    Decodes(w.sender.serde.tokenResponse, TokenPinRequired(token));
    HonestTokens(w.sender, w.receiver, w.Nonce(), w.Nonce());
  }

  lemma SenderTakesToken(w: World, s: S.Task, r: R.Task, W: seq<Message>, msg: Message, V: seq<Message>)
    requires w.Honest() && !w.EmptyPin() && s.sent == [] && s.stage == S.AwaitToken(w.Nonce())
    requires AtToken(w, s, r, W, [msg] + V)
    ensures var step := S.OnToken(w.sender, w.files, s, w.Nonce(), msg);
            if r.stage == R.Ended(BadSignature) || !w.SenderTrusts() then
              step == s.End(BadSignature) && AtEnd(w, step.task, r, W, V, BadSignature)
            else if r.stage.AwaitStatus? then
              Agree(w, step.task, r, W + step.out, V)
            else
              step == s.Go(S.EnterPin) && AtEnterPin(w, step.task, r, W, V)
  {
    hide S.OnToken, S.Challenge, OwnToken, Trust;
    Unfold(msg, V);
    TokenResponseRead(w, s);
    if r.stage.AwaitStatus? {
      ChallengeAgrees(w, s, r);
      assert [] + S.Challenge(w.sender, w.files, s).out == S.Challenge(w.sender, w.files, s).out;
    }
  }

  lemma SenderTakesPinReply(w: World, s: S.Task, r: R.Task, W: seq<Message>, msg: Message, V: seq<Message>)
    requires w.Honest() && s.sent == [] && s.stage.AwaitPinReply? && AtPinReply(w, s, r, W, [msg] + V)
    ensures var step := S.OnPinReply(w.sender, w.files, s, msg);
            Agree(w, step.task, r, W + step.out, V)
  {
    hide OwnToken;
    Unfold(msg, V);
    var step := S.OnPinReply(w.sender, w.files, s, msg);
    assert [] + step.out == step.out && W + [] == W;
    Decodes(w.sender.serde.pinReceiving, PinOk);
    Decodes(w.sender.serde.pinReceiving, PinRequired);
    Decodes(w.sender.serde.pinReceiving, PinTooManyAttempts);
    if r.stage == R.AwaitStatus([]) {
      assert step == S.Challenge(w.sender, w.files, s);
      ChallengeAgrees(w, s, r);
    } else if r.stage.AwaitPin? {
      assert step == s.Go(S.EnterPin);
      assert AtEnterPin(w, step.task, r, W, V);
    } else {
      assert step == s.End(TooManyAttempts);
      assert AtEnd(w, step.task, r, W, V, TooManyAttempts);
    }
  }

  lemma SenderTakesPin(w: World, s: S.Task, r: R.Task, W: seq<Message>, msg: Message, V: seq<Message>)
    requires w.Honest() && s.sent == [] && s.stage.AwaitPin? && Won(w.receiver.pin, s.entered)
    requires AtAwaitPin(w, s, r, W, [msg] + V, s.stage.tries)
    ensures var step := S.OnPin(w.sender, w.files, s, s.stage.tries, msg);
            Agree(w, step.task, r, W + step.out, V)
  {
    Unfold(msg, V);
    var step := S.OnPin(w.sender, w.files, s, s.stage.tries, msg);
    assert [] + step.out == step.out;
    var n := |r.entered| - 1;
    Decodes(w.receiver.serde.pin, PinMessage(r.entered[n]));
    assert ParsePin(w.sender.serde, msg) == Some(r.entered[n]);
    JudgeAgrees(w, s, r, w.sender.pin.value, r.entered[n], n + 1);
  }

  lemma SenderCollectsSelection(w: World, s: S.Task, r: R.Task, W: seq<Message>, msg: Message, V: seq<Message>,
                                buffer: bytes)
    requires !msg.isString && AtSelection(w, s, r, W, [msg] + V, buffer)
    ensures AtSelection(w, s.(stage := S.AwaitSelection(buffer + msg.data)), r, W, V, buffer + msg.data)
  {
    Unfold(msg, V);
  }

  lemma SenderTakesSelection(w: World, s: S.Task, r: R.Task, W: seq<Message>, msg: Message, V: seq<Message>,
                             buffer: bytes)
    requires w.Honest() && s.sent == [] && s.stage == S.AwaitSelection(buffer) && msg.isString
    requires Won(w.receiver.pin, s.entered) && AtSelection(w, s, r, W, [msg] + V, buffer)
    ensures var step := S.OnSelection(w.sender, s, buffer);
            step.out == [] && Agree(w, step.task, r, W, V)
  {
    Unfold(msg, V);
    var step := S.OnSelection(w.sender, s, buffer);
    if r.stage.Files? {
      Decodes(w.sender.serde.fileList, SelectionOk(r.setting.tokens));
      assert step == s.(tokens := r.setting.tokens).Go(S.NextFile);
      assert FilesAgree(w, step.task, r, W, V);
    } else {
      Decodes(w.sender.serde.fileList, SelectionDeclined);
      assert step == s.End(Declined);
      assert AtEnd(w, step.task, r, W, V, Declined);
    }
  }

  lemma SenderTakesLast(w: World, s: S.Task, r: R.Task, W: seq<Message>, msg: Message, V: seq<Message>)
    requires s.stage.AwaitLast? && BothWon(w, s, r) && FilesAgree(w, s, r, W, [msg] + V)
    ensures AtEnd(w, s.(stage := S.Ended(Finished)), r, W, V, Finished)
  {
  }

  lemma SenderTakes(w: World, s: S.Task, r: R.Task, W: seq<Message>, msg: Message, V: seq<Message>)
    requires w.Honest() && !w.EmptyPin() && S.Listening(s)
    requires Agree(w, s, r, W, [msg] + V)
    ensures var step := S.OnMessage(w.sender, w.files, s, msg);
            Agree(w, step.task, r, W + step.out, V)
  {
    hide AtNonce, AtToken, AtEnterPin, AtPinReply, AtAwaitPin, AtSelection, AtEnd, FilesAgree, Won,
         S.OnNonce, S.OnToken, S.OnPinReply, S.OnPin, S.OnSelection;
    assert W + [] == W;
    match s.stage
    case AwaitNonce => SenderTakesNonce(w, s, r, W, msg, V);
    case AwaitToken(_) => SenderTakesToken(w, s, r, W, msg, V);
    case AwaitPinReply => SenderTakesPinReply(w, s, r, W, msg, V);
    case AwaitPin(_) => SenderTakesPin(w, s, r, W, msg, V);
    case AwaitSelection(buffer) =>
      if msg.isString {
        SenderTakesSelection(w, s, r, W, msg, V, buffer);
      } else {
        SenderCollectsSelection(w, s, r, W, msg, V, buffer);
      }
    case AwaitLast => SenderTakesLast(w, s, r, W, msg, V);
  }

  // ---- The receiver takes a message -------------------------------------------------------------

  /** Where the sender can be, seen from the receiver's stage. */
  lemma ReceiverStages(w: World, s: S.Task, r: R.Task, W: seq<Message>, V: seq<Message>)
    requires Agree(w, s, r, W, V)
    ensures r.stage.AwaitNonce? ==> s.stage.AwaitNonce?
    ensures r.stage.AwaitToken? && W != [] ==> s.stage.AwaitToken? && r.stage.nonce == w.Nonce()
    ensures r.stage.AwaitPin? && W != [] ==> s.stage.AwaitPinReply?
    ensures (r.stage.AwaitStatus? || r.stage.AwaitVerdict?) && W != [] ==>
      s.stage.AwaitPin? || s.stage.AwaitSelection? || s.stage == S.Ended(TooManyAttempts)
    ensures r.stage.EnterPin? ==> s.stage.AwaitPin?
    ensures r.stage.Select? ==> s.stage.AwaitSelection?
    ensures r.stage.AwaitUser? || (r.stage.Files? && W != []) ==>
      BothWon(w, s, r) && FilesAgree(w, s, r, W, V) && Filing(s) && (s.stage.Ended? ==> s.stage.outcome.Finished?)
  {
  }

  lemma FilesAgreeAgrees(w: World, s: S.Task, r: R.Task, W: seq<Message>, V: seq<Message>)
    requires BothWon(w, s, r) && FilesAgree(w, s, r, W, V)
    requires Filing(s) && (s.stage.Ended? ==> s.stage.outcome.Finished?)
    ensures Agree(w, s, r, W, V)
  {
  }

  lemma ReceiverTakesNonce(w: World, s: S.Task, r: R.Task, msg: Message, W: seq<Message>, V: seq<Message>)
    requires w.Honest() && r.stage.AwaitNonce? && AtNonce(w, s, r, [msg] + W, V)
    ensures var step := R.OnNonce(w.receiver, r, msg);
            AtNonce(w, s, step.task, W, V + step.out)
  {
    Unfold(msg, W);
    NonceRoundTrip(w.sender);
  }

  /** How the receiver reads the sender's token. */
  lemma TokenRequestRead(w: World, r: R.Task)
    requires w.Honest() && !w.EmptyPin()
    ensures R.OnToken(w.receiver, r, w.Nonce(), TokenRequestText(w))
            == if !w.ReceiverTrusts() then r.Send([R.TokenText(w.receiver, TokenInvalidSignature)], R.Ended(BadSignature))
               else if w.receiver.pin.None? then r.Send([TokenResponseText(w)], R.AwaitStatus([]))
               else if w.receiver.pin.value.maxTries > 0 then r.Send([TokenResponseText(w)], R.AwaitPin(0))
               else r.Send([TokenResponseText(w)] + R.PinReply(w.receiver, PinTooManyAttempts), R.Ended(TooManyAttempts))
  {
    hide OwnToken;
    Decodes(w.sender.serde.tokenRequest, TokenRequest(OwnToken(w.sender, w.Nonce())));
    HonestTokens(w.receiver, w.sender, w.Nonce(), w.Nonce());
    assert [TokenResponseText(w)] + [] == [TokenResponseText(w)];
  }

  lemma ReceiverTakesToken(w: World, s: S.Task, r: R.Task, msg: Message, W: seq<Message>, V: seq<Message>)
    requires w.Honest() && !w.EmptyPin() && r.stage == R.AwaitToken(w.Nonce())
    requires AtToken(w, s, r, [msg] + W, V)
    ensures var step := R.OnToken(w.receiver, r, w.Nonce(), msg);
            AtToken(w, s, step.task, W, V + step.out)
  {
    hide R.OnToken, OwnToken, Trust;
    Unfold(msg, W);
    TokenRequestRead(w, r);
    var step := R.OnToken(w.receiver, r, w.Nonce(), msg);
    assert V + step.out == step.out;
    if !w.ReceiverTrusts() {
      assert step.task.stage == R.Ended(BadSignature);
    } else if w.receiver.pin.None? {
      assert step.task.stage == R.AwaitStatus([]);
    } else if w.receiver.pin.value.maxTries > 0 {
      assert step.task.stage == R.AwaitPin(0);
    } else {
      assert step.task.stage == R.Ended(TooManyAttempts);
    }
  }

  lemma ReceiverTakesPin(w: World, s: S.Task, r: R.Task, msg: Message, W: seq<Message>, V: seq<Message>)
    requires w.Honest() && r.stage.AwaitPin? && AtPinReply(w, s, r, [msg] + W, V)
    ensures var step := R.OnPin(w.receiver, r, r.stage.tries, msg);
            AtPinReply(w, s, step.task, W, V + step.out)
  {
    hide OwnToken;
    Unfold(msg, W);
    var n := |s.entered| - 1;
    Decodes(w.sender.serde.pin, PinMessage(s.entered[n]));
    assert s.entered == s.entered[..n] + [s.entered[n]];
    assert ParsePin(w.receiver.serde, msg) == Some(s.entered[n]);
  }

  lemma StatusDecodes(w: World)
    requires w.Honest()
    ensures var json := w.receiver.serde.pinSending;
            && json.decode(Listing(w)) == Some(ListOk(w.files))
            && json.decode(json.encode(ListPinRequired)) == Some(ListPinRequired)
            && json.decode(json.encode(ListTooManyAttempts)) == Some(ListTooManyAttempts)
  {
    Decodes(w.sender.serde.pinSending, ListOk(w.files));
    Decodes(w.sender.serde.pinSending, ListPinRequired);
    Decodes(w.sender.serde.pinSending, ListTooManyAttempts);
  }

  /** The receiver collects the sender's PIN status, in either of its two places. */
  lemma ReceiverCollects(w: World, s: S.Task, r: R.Task, msg: Message, W: seq<Message>, V: seq<Message>)
    requires !msg.isString && Agree(w, s, r, [msg] + W, V)
    ensures r.stage.AwaitStatus? ==> Agree(w, s, r.(stage := R.AwaitStatus(r.stage.buffer + msg.data)), W, V)
    ensures r.stage.AwaitVerdict? ==> Agree(w, s, r.(stage := R.AwaitVerdict(r.stage.buffer + msg.data)), W, V)
  {
    hide AtNonce, AtToken, AtEnterPin, AtPinReply, FilesAgree;
    ReceiverStages(w, s, r, [msg] + W, V);
    Unfold(msg, W);
  }

  lemma ReceiverReadsStatus(w: World, s: S.Task, r: R.Task, msg: Message, W: seq<Message>, V: seq<Message>)
    requires w.Honest() && msg.isString && r.stage.AwaitStatus? && Agree(w, s, r, [msg] + W, V)
    ensures var step := R.OnStatus(w.receiver, r, r.stage.buffer);
            step.out == [] && Agree(w, s, step.task, W, V)
  {
    hide AtNonce, AtToken, AtEnterPin, AtPinReply, FilesAgree;
    Unfold(msg, W);
    ReceiverStages(w, s, r, [msg] + W, V);
    StatusDecodes(w);
  }

  lemma ReceiverReadsVerdict(w: World, s: S.Task, r: R.Task, msg: Message, W: seq<Message>, V: seq<Message>)
    requires w.Honest() && msg.isString && r.stage.AwaitVerdict? && Agree(w, s, r, [msg] + W, V)
    ensures var step := R.OnVerdict(w.receiver, r, r.stage.buffer);
            step.out == [] && Agree(w, s, step.task, W, V)
  {
    hide AtNonce, AtToken, AtEnterPin, AtPinReply, FilesAgree;
    Unfold(msg, W);
    ReceiverStages(w, s, r, [msg] + W, V);
    StatusDecodes(w);
  }

  /** One turn of the receiver's loop, taken on the head of what is under way. */
  lemma FileTurn(w: World, s: S.Task, setting: Setting, loop: Loop, verdict: Option<FileResponse>, msg: Message,
                 W: seq<Message>)
    requires Faithful(setting.serde.header) && loop.status == Running
    requires loop.open.Some? ==> loop.delivered != []
    requires Carries(setting, loop, [msg] + W, QueueClosed(s), s.sent)
    ensures var loop' := Turn(setting, verdict, loop, msg);
            && (loop'.open.Some? ==> loop'.delivered != [])
            && (loop'.status == Running ==> Carries(setting, loop', W, QueueClosed(s), s.sent))
            && (loop'.status == Done ==> QueueClosed(s) && W == [] && LastOffered(setting.files, s.sent)
                                         && loop'.delivered == Offered(setting.files, s.sent))
            && (loop'.status == Broken ==> QueueClosed(s) && W == [] && !LastOffered(setting.files, s.sent))
  {
    var all := [msg] + W;
    var loop' := Turn(setting, verdict, loop, msg);
    if QueueClosed(s) && W == [] {
      assert all[|all| - 1] == msg == DELIMITER;
      assert Body(all, true) == [];
      assert setting.serde.header.decode(msg.data) == None;
    } else {
      StreamTail(setting, loop, msg, W, QueueClosed(s), s.sent);
      if loop'.status == Running {
        TurnIsFlowStep(setting, verdict, loop, msg);
      }
    }
  }

  lemma ReceiverTakesFile(w: World, s: S.Task, r: R.Task, msg: Message, W: seq<Message>, V: seq<Message>)
    requires w.Honest() && r.stage.Files? && FilesAgree(w, s, r, [msg] + W, V)
    ensures var step := R.OnFile(r, msg);
            && step == R.Step(r.(stage := step.task.stage, loop := step.task.loop), [])
            && FilesAgree(w, s, step.task, W, V)
  {
    if !(msg.isString && r.loop.open.Some?) {
      FileTurn(w, s, r.setting, r.loop, None, msg, W);
    }
  }

  lemma ReceiverTakes(w: World, s: S.Task, r: R.Task, msg: Message, W: seq<Message>, V: seq<Message>)
    requires w.Honest() && !w.EmptyPin() && R.Listening(r)
    requires Agree(w, s, r, [msg] + W, V)
    ensures var step := R.OnMessage(w.receiver, r, msg);
            Agree(w, s, step.task, W, V + step.out)
  {
    hide AtNonce, AtToken, AtEnterPin, AtPinReply, AtAwaitPin, AtSelection, AtEnd, FilesAgree, Won,
         R.OnNonce, R.OnToken, R.OnPin, R.OnFile, R.OnStatus, R.OnVerdict;
    ReceiverStages(w, s, r, [msg] + W, V);
    assert V + [] == V;
    Unfold(msg, W);
    match r.stage
    case AwaitNonce => ReceiverTakesNonce(w, s, r, msg, W, V);
    case AwaitToken(_) => ReceiverTakesToken(w, s, r, msg, W, V);
    case AwaitPin(_) => ReceiverTakesPin(w, s, r, msg, W, V);
    case Files =>
      ReceiverTakesFile(w, s, r, msg, W, V);
      FilesAgreeAgrees(w, s, R.OnFile(r, msg).task, W, V);
    case _ =>
      if msg.isString {
        if r.stage.AwaitStatus? {
          ReceiverReadsStatus(w, s, r, msg, W, V);
        } else {
          ReceiverReadsVerdict(w, s, r, msg, W, V);
        }
      } else {
        ReceiverCollects(w, s, r, msg, W, V);
      }
  }

  // ---- The users and applications act -----------------------------------------------------------

  /** What the receiver has still to go through, the message it is busy with included. */
  function Pending(r: R.Task, W: seq<Message>): seq<Message> {
    if r.stage.AwaitUser? then [r.stage.msg] + W else W
  }

  lemma PendingAppend(r: R.Task, W: seq<Message>, more: seq<Message>)
    ensures Pending(r, W + more) == Pending(r, W) + more
  {
    if r.stage.AwaitUser? {
      assert [r.stage.msg] + (W + more) == [r.stage.msg] + W + more;
    }
  }

  lemma SenderFiles(w: World, s: S.Task, r: R.Task, W: seq<Message>, V: seq<Message>, a: S.Action)
    requires w.Honest() && S.CanAct(s, a) && !a.Enter? && FilesAgree(w, s, r, W, V)
    ensures var step := S.OnAction(w.sender, s, a);
            && step.task.entered == s.entered && Filing(step.task) && !step.task.stage.Ended?
            && FilesAgree(w, step.task, r, W + step.out, V)
  {
    var step := S.OnAction(w.sender, s, a);
    PendingAppend(r, W, step.out);
    var pending := Pending(r, W);
    assert pending + [] == pending && W + [] == W;
    match a
    case Queue(id) =>
      if id in s.tokens {
        CarriesHeader(r.setting, r.loop, pending, s.sent, id);
      }
    case Data(part) =>
      CarriesChunks(r.setting, r.loop, pending, s.sent, Chunking.Drain(s.stage.buffer + part).0);
    case Eof =>
      if s.stage.buffer != [] {
        CarriesChunks(r.setting, r.loop, pending, s.sent, [s.stage.buffer]);
        assert Binaries([s.stage.buffer]) == [Binary(s.stage.buffer)];
      }
    case Close =>
      CarriesDelimiter(r.setting, r.loop, pending, s.sent);
  }

  lemma SenderEnters(w: World, s: S.Task, r: R.Task, W: seq<Message>, V: seq<Message>, pin: string)
    requires s.stage.EnterPin? && AtEnterPin(w, s, r, W, V)
    ensures var step := S.OnAction(w.sender, s, S.Enter(pin));
            AtPinReply(w, step.task, r, W + step.out, V)
  {
    var step := S.OnAction(w.sender, s, S.Enter(pin));
    assert step.task.entered[..|s.entered|] == s.entered;
  }

  lemma SenderActs(w: World, s: S.Task, r: R.Task, W: seq<Message>, V: seq<Message>, a: S.Action)
    requires w.Honest() && S.CanAct(s, a)
    requires Agree(w, s, r, W, V)
    ensures var step := S.OnAction(w.sender, s, a);
            Agree(w, step.task, r, W + step.out, V)
  {
    hide AtNonce, AtToken, AtEnterPin, AtPinReply, AtAwaitPin, AtSelection, AtEnd, FilesAgree, Won;
    if a.Enter? {
      SenderEnters(w, s, r, W, V, a.pin);
    } else {
      SenderFiles(w, s, r, W, V, a);
    }
  }

  lemma ReceiverChooses(w: World, s: S.Task, r: R.Task, W: seq<Message>, V: seq<Message>,
                        selection: Option<map<string, string>>)
    requires w.Honest() && r.stage.Select? && s.stage.AwaitSelection?
    requires AtSelection(w, s, r, W, V, s.stage.buffer)
    ensures var step := R.OnChoice(w.receiver, r, selection);
            AtSelection(w, s, step.task, W, V + step.out, s.stage.buffer)
  {
    var step := R.OnChoice(w.receiver, r, selection);
    assert [] + step.out == step.out;
    match selection
    case None => FramedIsRest(w.receiver.serde.fileList.encode(SelectionDeclined));
    case Some(tokens) => FramedIsRest(w.receiver.serde.fileList.encode(SelectionOk(tokens)));
  }

  lemma ReceiverResult(w: World, s: S.Task, r: R.Task, W: seq<Message>, V: seq<Message>,
                       result: Option<FileResponse>)
    requires w.Honest() && r.stage.AwaitUser? && r.loop.open.Some? && FilesAgree(w, s, r, W, V)
    ensures var step := R.OnResult(w.receiver, r, r.loop.open.value, r.stage.msg, result);
            step.task.entered == r.entered && FilesAgree(w, s, step.task, W, V + step.out)
  {
    FileTurn(w, s, r.setting, r.loop, result, r.stage.msg, W);
  }

  lemma ReceiverEnters(w: World, s: S.Task, r: R.Task, W: seq<Message>, V: seq<Message>, pin: string)
    requires r.stage.EnterPin? && s.stage.AwaitPin? && AtAwaitPin(w, s, r, W, V, s.stage.tries)
    ensures var step := R.OnAction(w.receiver, r, R.Enter(pin));
            AtAwaitPin(w, s, step.task, W, V + step.out, s.stage.tries)
  {
    var step := R.OnAction(w.receiver, r, R.Enter(pin));
    assert step.task.entered[..|r.entered|] == r.entered;
  }

  lemma ReceiverActs(w: World, s: S.Task, r: R.Task, W: seq<Message>, V: seq<Message>, a: R.Action)
    requires w.Honest() && R.CanAct(r, a)
    requires Agree(w, s, r, W, V)
    ensures var step := R.OnAction(w.receiver, r, a);
            Agree(w, s, step.task, W, V + step.out)
  {
    hide AtNonce, AtToken, AtEnterPin, AtPinReply, AtAwaitPin, AtSelection, AtEnd, FilesAgree, Won,
         R.OnChoice, R.OnResult;
    ReceiverStages(w, s, r, W, V);
    match a
    case Enter(pin) =>
      ReceiverEnters(w, s, r, W, V, pin);
    case Choose(selection) =>
      ReceiverChooses(w, s, r, W, V, selection);
    case Verdict(result) =>
      ReceiverResult(w, s, r, W, V, result);
      var step := R.OnResult(w.receiver, r, r.loop.open.value, r.stage.msg, result);
      FilesAgreeAgrees(w, s, step.task, W, V + step.out);
  }

  // ---- Every run --------------------------------------------------------------------------------

  /** The agreement as a property of a state. Emitting moves messages along, but leaves what is under way the same. */
  ghost predicate Inv(w: World, g: State) {
    Agree(w, g.s, g.r, g.toR + g.sOut, g.toS + g.rOut)
  }

  lemma BeginInv(w: World)
    requires w.Honest()
    ensures Inv(w, Begin(w))
  {
  }

  lemma NextInv(w: World, g: State, move: Move)
    requires w.Honest() && !w.EmptyPin() && Inv(w, g) && Enabled(g, move)
    ensures Inv(w, Next(w, g, move))
  {
    hide Agree, S.OnMessage, S.OnAction, R.OnMessage, R.OnAction;
    var W, V := g.toR + g.sOut, g.toS + g.rOut;
    match move
    case SenderEmits =>
      assert g.toR + [g.sOut[0]] + g.sOut[1..] == W;
    case ReceiverEmits =>
      assert g.toS + [g.rOut[0]] + g.rOut[1..] == V;
    case SenderTakes =>
      assert V == [g.toS[0]] + (g.toS[1..] + g.rOut) && W == g.toR;
      SenderTakes(w, g.s, g.r, W, g.toS[0], g.toS[1..] + g.rOut);
    case ReceiverTakes =>
      assert W == [g.toR[0]] + (g.toR[1..] + g.sOut) && V == g.toS;
      ReceiverTakes(w, g.s, g.r, g.toR[0], g.toR[1..] + g.sOut, V);
    case SenderActs(a) =>
      assert W == g.toR;
      SenderActs(w, g.s, g.r, W, V, a);
    case ReceiverActs(a) =>
      assert V == g.toS;
      ReceiverActs(w, g.s, g.r, W, V, a);
  }

  lemma {:induction false} RunInv(w: World, moves: seq<Move>, g: State)
    requires w.Honest() && !w.EmptyPin() && Run(w, moves) == Some(g)
    ensures Inv(w, g)
    decreases |moves|
  {
    hide Inv, Next;
    if moves == [] {
      BeginInv(w);
    } else {
      var n := |moves| - 1;
      RunInv(w, moves[..n], Run(w, moves[..n]).value);
      NextInv(w, Run(w, moves[..n]).value, moves[n]);
    }
  }
}
