/** When the receiving user gets to see the sender's files at all. */
module SessionReach {
  import opened Basics
  import opened Framing
  import opened Handshake
  import opened Protocol
  import opened PinCheck
  import opened Session
  import opened SessionInvariant
  import opened SessionTheorems
  import S = Sending
  import R = Receiving

  /** The receiver's user has been shown the file list. */
  predicate Shown(r: R.Task) {
    || r.stage.Select? || r.stage.Files? || r.stage.AwaitUser?
    || (r.stage.Ended? && (r.stage.outcome.Finished? || r.stage.outcome.Declined?))
  }

  /** Both accept the other's token, and the receiver's PIN is not set up so that it defeats its own challenge. */
  predicate Passable(w: World) {
    && w.SenderTrusts() && w.ReceiverTrusts() && !w.EmptyPin()
    && (w.receiver.pin.Some? ==> w.receiver.pin.value.maxTries > 0)
  }

  /** The same for both PINs. */
  predicate Viable(w: World) {
    Passable(w) && !w.ZeroTries()
  }

  // ---- An empty receiver PIN --------------------------------------------------------------------

  /** With an empty PIN the receiver waits for the file list, but the first thing to reach it is the sender's PIN. */
  ghost predicate Misled(w: World, s: S.Task, r: R.Task, W: seq<Message>, V: seq<Message>) {
    match r.stage
    case AwaitNonce => s.stage.AwaitNonce? && W == [NonceText(w.sender)] && V == []
    case AwaitToken(nonce) =>
      && nonce == w.Nonce()
      && (|| (s.stage.AwaitNonce? && W == [] && V == [NonceText(w.receiver)])
          || (s.stage == S.AwaitToken(w.Nonce()) && W == [TokenRequestText(w)] && V == []))
    case AwaitStatus(buffer) =>
      && buffer == []
      && (|| (&& s.stage == S.AwaitToken(w.Nonce()) && W == []
              && V == [TokenResponseText(w)] + R.PinReply(w.receiver, PinOk))
          || (s.stage.EnterPin? && W == [])
          || (s.stage == S.Ended(BadSignature) && W == [])
          || (W != [] && W[0].isString))
    case Ended(outcome) => outcome == BadSignature || outcome == ProtocolError
    case _ => false
  }

  ghost predicate MisledState(w: World, g: State) {
    Misled(w, g.s, g.r, g.toR + g.sOut, g.toS + g.rOut)
  }

  /** How each device reads the other's nonce. */
  lemma NoncesRead(w: World, s: S.Task, r: R.Task)
    requires w.Honest()
    ensures R.OnNonce(w.receiver, r, NonceText(w.sender)) == r.Send([NonceText(w.receiver)], R.AwaitToken(w.Nonce()))
    ensures S.OnNonce(w.sender, s, NonceText(w.receiver)) == s.Send([TokenRequestText(w)], S.AwaitToken(w.Nonce()))
  {
    hide OwnToken;
    NonceRoundTrip(w.sender);
    NonceRoundTrip(w.receiver);
  }

  /** With an empty PIN of its own, the receiver takes the challenge as passed as soon as it has announced it. */
  lemma EmptyPinPasses(w: World, r: R.Task)
    requires w.Honest() && w.EmptyPin()
    ensures R.OnToken(w.receiver, r, w.Nonce(), TokenRequestText(w))
            == if !w.ReceiverTrusts() then r.Send([R.TokenText(w.receiver, TokenInvalidSignature)], R.Ended(BadSignature))
               else r.Send([TokenResponseText(w)] + R.PinReply(w.receiver, PinOk), R.AwaitStatus([]))
  {
    hide OwnToken;
    Decodes(w.sender.serde.tokenRequest, TokenRequest(OwnToken(w.sender, w.Nonce())));
    HonestTokens(w.receiver, w.sender, w.Nonce(), w.Nonce());
  }

  lemma StatusTooEarly(w: World, r: R.Task)
    requires w.Honest()
    ensures R.OnStatus(w.receiver, r, []) == r.End(ProtocolError)
  {
    assert w.receiver.serde.pinSending.decode([]) == None;
  }

  lemma MisledReceiver(w: World, s: S.Task, r: R.Task, msg: Message, W: seq<Message>, V: seq<Message>)
    requires w.Honest() && w.EmptyPin() && R.Listening(r) && Misled(w, s, r, [msg] + W, V)
    ensures var step := R.OnMessage(w.receiver, r, msg);
            Misled(w, s, step.task, W, V + step.out)
  {
    hide OwnToken, Trust, R.OnNonce, R.OnToken, R.OnStatus, NonceText, TokenRequestText, TokenResponseText;
    Unfold(msg, W);
    NoncesRead(w, s, r);
    EmptyPinPasses(w, r);
    StatusTooEarly(w, r);
    var step := R.OnMessage(w.receiver, r, msg);
    assert [] + step.out == step.out;
  }

  lemma MisledSender(w: World, s: S.Task, r: R.Task, W: seq<Message>, msg: Message, V: seq<Message>)
    requires w.Honest() && w.EmptyPin() && S.Listening(s) && Misled(w, s, r, W, [msg] + V)
    ensures var step := S.OnMessage(w.sender, w.files, s, msg);
            Misled(w, step.task, r, W + step.out, V)
  {
    hide OwnToken, Trust, S.OnNonce, S.OnToken, S.OnPinReply, S.OnPin, S.OnSelection,
         NonceText, TokenRequestText, TokenResponseText;
    Unfold(msg, V);
    NoncesRead(w, s, r);
    TokenResponseRead(w, s);
    var step := S.OnMessage(w.sender, w.files, s, msg);
    assert W != [] ==> (W + step.out)[0] == W[0];
    assert [] + step.out == step.out;
  }

  lemma MisledActs(w: World, s: S.Task, r: R.Task, W: seq<Message>, V: seq<Message>, a: S.Action)
    requires S.CanAct(s, a) && Misled(w, s, r, W, V)
    ensures var step := S.OnAction(w.sender, s, a);
            Misled(w, step.task, r, W + step.out, V)
  {
    var step := S.OnAction(w.sender, s, a);
    assert W != [] ==> (W + step.out)[0] == W[0];
  }

  lemma MisledWaits(w: World, s: S.Task, r: R.Task, W: seq<Message>, V: seq<Message>, a: R.Action)
    requires Misled(w, s, r, W, V)
    ensures !R.CanAct(r, a)
  {
  }

  lemma MisledNext(w: World, g: State, move: Move)
    requires w.Honest() && w.EmptyPin() && MisledState(w, g) && Enabled(g, move)
    ensures MisledState(w, Next(w, g, move))
  {
    hide Misled, S.OnMessage, S.OnAction, R.OnMessage, R.OnAction;
    var W, V := g.toR + g.sOut, g.toS + g.rOut;
    match move
    case SenderEmits =>
      assert g.toR + [g.sOut[0]] + g.sOut[1..] == W;
    case ReceiverEmits =>
      assert g.toS + [g.rOut[0]] + g.rOut[1..] == V;
    case SenderTakes =>
      assert V == [g.toS[0]] + (g.toS[1..] + g.rOut) && W == g.toR;
      MisledSender(w, g.s, g.r, W, g.toS[0], g.toS[1..] + g.rOut);
    case ReceiverTakes =>
      assert W == [g.toR[0]] + (g.toR[1..] + g.sOut) && V == g.toS;
      MisledReceiver(w, g.s, g.r, g.toR[0], g.toR[1..] + g.sOut, V);
    case SenderActs(a) =>
      assert W == g.toR;
      MisledActs(w, g.s, g.r, W, V, a);
    case ReceiverActs(a) =>
      MisledWaits(w, g.s, g.r, W, V, a);
  }

  lemma {:induction false} EmptyPinMisleads(w: World, moves: seq<Move>, g: State)
    requires w.Honest() && w.EmptyPin() && Run(w, moves) == Some(g)
    ensures MisledState(w, g)
    decreases |moves|
  {
    hide Next, Misled;
    if moves == [] {
      BeginMisled(w);
    } else {
      var n := |moves| - 1;
      EmptyPinMisleads(w, moves[..n], Run(w, moves[..n]).value);
      MisledNext(w, Run(w, moves[..n]).value, moves[n]);
    }
  }

  lemma BeginMisled(w: World)
    ensures MisledState(w, Begin(w))
  {
  }

  // ---- The tokens -------------------------------------------------------------------------------

  /** The sender went past the token exchange. */
  predicate Admitted(s: S.Task) {
    && !s.stage.AwaitNonce? && !s.stage.AwaitToken?
    && (s.stage.Ended? ==> s.stage.outcome.Finished? || s.stage.outcome.Declined? || s.stage.outcome.TooManyAttempts?)
  }

  lemma TokenAdmits(w: World, s: S.Task, r: R.Task, W: seq<Message>, msg: Message, V: seq<Message>)
    requires w.Honest() && !w.EmptyPin() && s.sent == [] && s.stage == S.AwaitToken(w.Nonce())
    requires AtToken(w, s, r, W, [msg] + V)
    requires Admitted(S.OnToken(w.sender, w.files, s, w.Nonce(), msg).task)
    ensures w.SenderTrusts() && w.ReceiverTrusts()
  {
    hide S.OnToken, S.Challenge, OwnToken, Trust;
    Unfold(msg, V);
    TokenResponseRead(w, s);
  }

  lemma AdmittingMove(w: World, g: State, move: Move)
    requires Enabled(g, move) && !Admitted(g.s) && Admitted(Next(w, g, move).s)
    ensures move == SenderTakes && g.s.stage.AwaitToken?
    ensures Next(w, g, move).s == S.OnToken(w.sender, w.files, g.s, g.s.stage.nonce, g.toS[0]).task
  {
    hide S.OnToken, S.OnNonce, R.OnMessage, R.OnAction;
    if move.SenderTakes? && g.s.stage.AwaitNonce? {
      NonceAdmitsNone(w, g.s, g.toS[0]);
    }
  }

  lemma NextAdmits(w: World, g: State, move: Move)
    requires w.Honest() && !w.EmptyPin() && Inv(w, g) && Enabled(g, move)
    requires !Admitted(g.s) && Admitted(Next(w, g, move).s)
    ensures w.SenderTrusts() && w.ReceiverTrusts()
  {
    hide AtNonce, AtToken, AtEnterPin, AtPinReply, AtAwaitPin, AtSelection, AtEnd, FilesAgree, Won, BothWon,
         Next, Admitted, Trust, S.OnToken;
    AdmittingMove(w, g, move);
    var V := g.toS[1..] + g.rOut;
    assert g.toS + g.rOut == [g.toS[0]] + V;
    TokenAdmits(w, g.s, g.r, g.toR + g.sOut, g.toS[0], V);
  }

  lemma {:induction false} AdmittedTrusts(w: World, moves: seq<Move>, g: State)
    requires w.Honest() && !w.EmptyPin() && Run(w, moves) == Some(g) && Admitted(g.s)
    ensures w.SenderTrusts() && w.ReceiverTrusts()
    decreases |moves|
  {
    hide Inv, Next;
    if moves != [] {
      var n := |moves| - 1;
      var before := Run(w, moves[..n]).value;
      if Admitted(before.s) {
        AdmittedTrusts(w, moves[..n], before);
      } else {
        RunInv(w, moves[..n], before);
        NextAdmits(w, before, moves[n]);
      }
    }
  }

  lemma NonceAdmitsNone(w: World, s: S.Task, msg: Message)
    ensures !Admitted(S.OnNonce(w.sender, s, msg).task)
  {
  }

  /** With a receiver PIN that is not empty, the list is shown only behind a sender that was admitted. */
  lemma ShownAgreement(w: World, s: S.Task, r: R.Task, W: seq<Message>, V: seq<Message>)
    requires Agree(w, s, r, W, V) && !w.EmptyPin() && Shown(r)
    ensures Admitted(s) && !w.ZeroTries() && (w.receiver.pin.Some? ==> w.receiver.pin.value.maxTries > 0)
  {
    hide OwnToken;
  }

  /** The receiving user sees a file list only if both tokens were accepted and neither PIN defeats its own challenge:
      an empty one of the receiver, or one that allows no tries. */
  lemma ShownOnlyIfViable(w: World, moves: seq<Move>, g: State)
    requires w.Honest() && Run(w, moves) == Some(g) && Shown(g.r)
    ensures Viable(w)
  {
    hide Run, Agree, Misled, OwnToken;
    if w.EmptyPin() {
      EmptyPinMisleads(w, moves, g);
      MisledShowsNone(w, g.s, g.r, g.toR + g.sOut, g.toS + g.rOut);
    } else {
      RunInv(w, moves, g);
      ShownAgreement(w, g.s, g.r, g.toR + g.sOut, g.toS + g.rOut);
      AdmittedTrusts(w, moves, g);
    }
  }

  lemma MisledShowsNone(w: World, s: S.Task, r: R.Task, W: seq<Message>, V: seq<Message>)
    requires Misled(w, s, r, W, V)
    ensures !Shown(r)
  {
  }
}
