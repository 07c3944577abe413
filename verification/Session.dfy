/** Two honest devices joined by an ordered, reliable, message-preserving data channel. */
module Session {
  import opened Basics
  import opened Framing
  import opened Handshake
  import opened Model
  import opened Protocol
  import opened FileLoop
  import opened FileFlow
  import S = Sending
  import R = Receiving
  import Token

  datatype World = World(sender: Config, receiver: Config, files: seq<FileDto>)
  {
    ghost predicate Honest() {
      && sender.serde == receiver.serde && sender.serde.Valid()
      && sender.crypto == receiver.crypto && sender.crypto.SignsCorrectly()
      && |sender.nonce| == |receiver.nonce| == NONCE_LENGTH
    }

    /** The sender's part first, whichever side computes it. */
    function Nonce(): bytes {
      sender.nonce + receiver.nonce
    }

    predicate SenderTrusts() {
      Trust(sender, OwnToken(receiver, Nonce()), Nonce()) == Token.Accepted
    }

    predicate ReceiverTrusts() {
      Trust(receiver, OwnToken(sender, Nonce()), Nonce()) == Token.Accepted
    }

    /** The receiver announces a PIN challenge which its own empty PIN passes before the sender answers. */
    predicate EmptyPin() {
      receiver.pin.Some? && receiver.pin.value.pin == ""
    }

    /** The sender gives up on the PIN before asking for it. */
    predicate ZeroTries() {
      sender.pin.Some? && sender.pin.value.pin != "" && sender.pin.value.maxTries == 0
    }
  }

  /** The two tasks, what each of them is about to put on the channel, and what the channel carries to each. */
  datatype State = State(s: S.Task, sOut: seq<Message>, r: R.Task, rOut: seq<Message>,
                         toR: seq<Message>, toS: seq<Message>)
  {
    function SenderStep(step: S.Step): State {
      this.(s := step.task, sOut := step.out)
    }

    function ReceiverStep(step: R.Step): State {
      this.(r := step.task, rOut := step.out)
    }
  }

  datatype Move =
    | SenderEmits
    | ReceiverEmits
    | SenderTakes
    | ReceiverTakes
    | SenderActs(sa: S.Action)
    | ReceiverActs(ra: R.Action)

  function Begin(w: World): State {
    var (sender, receiver) := (S.Begin(w.sender), R.Begin(w.receiver));
    State(sender.task, sender.out, receiver.task, receiver.out, [], [])
  }

  /** A task goes on only after everything it has to send was sent. */
  predicate Enabled(g: State, move: Move) {
    match move
    case SenderEmits => g.sOut != []
    case ReceiverEmits => g.rOut != []
    case SenderTakes => g.sOut == [] && S.Listening(g.s) && g.toS != []
    case ReceiverTakes => g.rOut == [] && R.Listening(g.r) && g.toR != []
    case SenderActs(a) => g.sOut == [] && S.CanAct(g.s, a)
    case ReceiverActs(a) => g.rOut == [] && R.CanAct(g.r, a)
  }

  function Next(w: World, g: State, move: Move): State
    requires Enabled(g, move)
  {
    match move
    case SenderEmits => g.(sOut := g.sOut[1..], toR := g.toR + [g.sOut[0]])
    case ReceiverEmits => g.(rOut := g.rOut[1..], toS := g.toS + [g.rOut[0]])
    case SenderTakes => g.(toS := g.toS[1..]).SenderStep(S.OnMessage(w.sender, w.files, g.s, g.toS[0]))
    case ReceiverTakes => g.(toR := g.toR[1..]).ReceiverStep(R.OnMessage(w.receiver, g.r, g.toR[0]))
    case SenderActs(a) => g.SenderStep(S.OnAction(w.sender, g.s, a))
    case ReceiverActs(a) => g.ReceiverStep(R.OnAction(w.receiver, g.r, a))
  }

  /** The state after `moves`, if each of them was possible in turn. */
  function Run(w: World, moves: seq<Move>): Option<State>
    decreases |moves|
  {
    if moves == [] then Some(Begin(w))
    else
      match Run(w, moves[..|moves| - 1])
      case None => None
      case Some(g) =>
        var move := moves[|moves| - 1];
        if Enabled(g, move) then Some(Next(w, g, move)) else None
  }

  // ---- PIN histories ----------------------------------------------------------------------------

  /** `tries` PINs were judged, all wrong, and the verifier waits for another one. */
  predicate Wrong(pin: Option<PinConfig>, entered: seq<string>, tries: nat) {
    && pin.Some? && pin.value.pin != ""
    && |entered| == tries < pin.value.maxTries as nat && pin.value.pin !in entered
  }

  /** The last PIN entered is the right one, the first of its kind, and came within the allowed tries. */
  predicate Won(pin: Option<PinConfig>, entered: seq<string>) {
    if pin.None? || pin.value.pin == "" then entered == []
    else
      var n := |entered| - 1;
      0 <= n < pin.value.maxTries as nat && entered[n] == pin.value.pin && pin.value.pin !in entered[..n]
  }

  /** All tries were used up on wrong PINs. */
  predicate Lost(pin: Option<PinConfig>, entered: seq<string>) {
    && pin.Some? && pin.value.pin != ""
    && |entered| == pin.value.maxTries as nat && pin.value.pin !in entered
  }

  /** The receiver's challenge is lost. With no tries at all the sender enters one PIN that nobody reads. */
  predicate LostToReceiver(w: World, entered: seq<string>) {
    if w.receiver.pin.Some? && w.receiver.pin.value.maxTries == 0 then
      w.receiver.pin.value.pin != "" && |entered| <= 1
    else Lost(w.receiver.pin, entered)
  }

  // ---- The agreement between the two devices ----------------------------------------------------

  function TokenRequestText(w: World): Message {
    Text(w.sender.serde.tokenRequest.encode(TokenRequest(OwnToken(w.sender, w.Nonce()))))
  }

  function TokenResponseText(w: World): Message {
    var token := OwnToken(w.receiver, w.Nonce());
    R.TokenText(w.receiver, if w.receiver.pin.None? then TokenOk(token) else TokenPinRequired(token))
  }

  function PinText(c: Config, entered: seq<string>): seq<Message>
    requires entered != []
  {
    [Text(c.serde.pin.encode(PinMessage(entered[|entered| - 1])))]
  }

  function Listing(w: World): bytes {
    w.sender.serde.pinSending.encode(ListOk(w.files))
  }

  predicate Filing(s: S.Task) {
    s.stage.NextFile? || s.stage.Streaming? || s.stage.AwaitLast? || s.stage.Ended?
  }

  predicate QueueClosed(s: S.Task) {
    s.stage.AwaitLast? || s.stage.Ended?
  }

  /** While files are sent: what the receiver has, and what is under way to it, is what the sender announced. */
  ghost predicate FilesAgree(w: World, s: S.Task, r: R.Task, W: seq<Message>, V: seq<Message>) {
    && r.setting == Setting(w.receiver.serde, w.files, s.tokens)
    && (r.loop.open.Some? ==> r.loop.delivered != [])
    && (!s.stage.Ended? ==> |V| == |r.loop.responses|)
    && match r.stage {
         case Files =>
           r.loop.status == Running && Carries(r.setting, r.loop, W, QueueClosed(s), s.sent)
         case AwaitUser(msg) =>
           && r.loop.status == Running && r.loop.open.Some? && msg.isString
           && Carries(r.setting, r.loop, [msg] + W, QueueClosed(s), s.sent)
         case Ended(Finished) =>
           && QueueClosed(s) && W == [] && r.loop.responses != []
           && LastOffered(w.files, s.sent) && r.loop.delivered == Offered(w.files, s.sent)
         case Ended(ProtocolError) =>
           && QueueClosed(s) && W == [] && !LastOffered(w.files, s.sent) && r.loop.status == Broken
         case _ => false
       }
  }

  /** The invariant. `W` are all messages under way to the receiver and `V` all those under way to the sender, whether
      already on the channel or still waiting to be put there. */
  ghost predicate Agree(w: World, s: S.Task, r: R.Task, W: seq<Message>, V: seq<Message>) {
    && (!Filing(s) ==> s.sent == [])
    && match s.stage
    case AwaitNonce => AtNonce(w, s, r, W, V)
    case AwaitToken(nonce) => nonce == w.Nonce() && AtToken(w, s, r, W, V)
    case EnterPin => AtEnterPin(w, s, r, W, V)
    case AwaitPinReply => AtPinReply(w, s, r, W, V)
    case AwaitPin(tries) => Won(w.receiver.pin, s.entered) && AtAwaitPin(w, s, r, W, V, tries)
    case AwaitSelection(buffer) => Won(w.receiver.pin, s.entered) && AtSelection(w, s, r, W, V, buffer)
    case NextFile => BothWon(w, s, r) && FilesAgree(w, s, r, W, V)
    case Streaming(_) => BothWon(w, s, r) && FilesAgree(w, s, r, W, V)
    case AwaitLast => BothWon(w, s, r) && FilesAgree(w, s, r, W, V)
    case Pairing => false
    case Ended(outcome) => AtEnd(w, s, r, W, V, outcome)
  }

  predicate BothWon(w: World, s: S.Task, r: R.Task) {
    Won(w.receiver.pin, s.entered) && Won(w.sender.pin, r.entered)
  }

  ghost predicate AtNonce(w: World, s: S.Task, r: R.Task, W: seq<Message>, V: seq<Message>) {
    && s.entered == [] && r.entered == []
    && match r.stage {
         case AwaitNonce => W == [NonceText(w.sender)] && V == []
         case AwaitToken(nonce) => nonce == w.Nonce() && W == [] && V == [NonceText(w.receiver)]
         case _ => false
       }
  }

  ghost predicate AtToken(w: World, s: S.Task, r: R.Task, W: seq<Message>, V: seq<Message>) {
    && s.entered == [] && r.entered == []
    && match r.stage {
         case AwaitToken(nonce) => nonce == w.Nonce() && W == [TokenRequestText(w)] && V == []
         case AwaitPin(tries) =>
           tries == 0 && Wrong(w.receiver.pin, [], 0) && W == [] && V == [TokenResponseText(w)] && w.ReceiverTrusts()
         case AwaitStatus(buffer) =>
           buffer == [] && w.receiver.pin.None? && W == [] && V == [TokenResponseText(w)] && w.ReceiverTrusts()
         case Ended(BadSignature) =>
           W == [] && V == [R.TokenText(w.receiver, TokenInvalidSignature)] && !w.ReceiverTrusts()
         case Ended(TooManyAttempts) =>
           && W == [] && V == [TokenResponseText(w)] + R.PinReply(w.receiver, PinTooManyAttempts)
           && w.receiver.pin.Some? && w.receiver.pin.value.maxTries == 0 && LostToReceiver(w, [])
           && w.ReceiverTrusts()
         case _ => false
       }
  }

  ghost predicate AtEnterPin(w: World, s: S.Task, r: R.Task, W: seq<Message>, V: seq<Message>) {
    && r.entered == []
    && match r.stage {
         case AwaitPin(tries) => W == [] && V == [] && Wrong(w.receiver.pin, s.entered, tries)
         case Ended(TooManyAttempts) =>
           && W == [] && V == R.PinReply(w.receiver, PinTooManyAttempts) && s.entered == []
           && w.receiver.pin.Some? && w.receiver.pin.value.maxTries == 0 && LostToReceiver(w, [])
         case _ => false
       }
  }

  ghost predicate AtPinReply(w: World, s: S.Task, r: R.Task, W: seq<Message>, V: seq<Message>) {
    && r.entered == []
    && s.entered != []
    && match r.stage {
         case AwaitPin(tries) =>
           || (&& W == PinText(w.sender, s.entered) && V == []
               && Wrong(w.receiver.pin, s.entered[..|s.entered| - 1], tries))
           || (W == [] && V == R.PinReply(w.receiver, PinRequired) && Wrong(w.receiver.pin, s.entered, tries))
         case AwaitStatus(buffer) =>
           buffer == [] && W == [] && V == R.PinReply(w.receiver, PinOk) && Won(w.receiver.pin, s.entered)
         case Ended(TooManyAttempts) =>
           V == R.PinReply(w.receiver, PinTooManyAttempts) && LostToReceiver(w, s.entered)
         case _ => false
       }
  }

  ghost predicate AtAwaitPin(w: World, s: S.Task, r: R.Task, W: seq<Message>, V: seq<Message>, tries: nat) {
    var required := w.sender.serde.pinSending.encode(ListPinRequired);
    match r.stage
    case AwaitStatus(buffer) => V == [] && Wrong(w.sender.pin, r.entered, tries) && tries == 0 && Rest(buffer, W, required)
    case EnterPin => V == [] && W == [] && Wrong(w.sender.pin, r.entered, tries)
    case AwaitVerdict(buffer) =>
      || (&& r.entered != [] && W == [] && buffer == [] && V == PinText(w.receiver, r.entered)
          && Wrong(w.sender.pin, r.entered[..|r.entered| - 1], tries))
      || (V == [] && r.entered != [] && Wrong(w.sender.pin, r.entered, tries) && Rest(buffer, W, required))
    case _ => false
  }

  ghost predicate AtSelection(w: World, s: S.Task, r: R.Task, W: seq<Message>, V: seq<Message>, buffer: bytes) {
    && Won(w.sender.pin, r.entered)
    && match r.stage {
         case AwaitStatus(b) => V == [] && buffer == [] && Rest(b, W, Listing(w))
         case AwaitVerdict(b) => V == [] && buffer == [] && Rest(b, W, Listing(w))
         case Select =>
           V == [] && buffer == [] && W == [] && r.setting == Setting(w.receiver.serde, w.files, map[])
         case Ended(Declined) => W == [] && Rest(buffer, V, w.receiver.serde.fileList.encode(SelectionDeclined))
         case Files =>
           && W == [] && r.loop == INITIAL
           && r.setting == Setting(w.receiver.serde, w.files, r.setting.tokens)
           && Rest(buffer, V, w.receiver.serde.fileList.encode(SelectionOk(r.setting.tokens)))
         case _ => false
       }
  }

  /** Where the receiver is when the sender ends without a word after the token. */
  predicate LeftBehind(w: World, stage: R.Stage) {
    match stage
    case AwaitPin(tries) => tries == 0 && Wrong(w.receiver.pin, [], 0)
    case AwaitStatus(buffer) => buffer == [] && w.receiver.pin.None?
    case Ended(TooManyAttempts) => w.receiver.pin.Some? && w.receiver.pin.value.maxTries == 0
    case _ => false
  }

  ghost predicate AtEnd(w: World, s: S.Task, r: R.Task, W: seq<Message>, V: seq<Message>, outcome: Outcome) {
    var tooMany := w.sender.serde.pinSending.encode(ListTooManyAttempts);
    match outcome
    case Finished => BothWon(w, s, r) && FilesAgree(w, s, r, W, V)
    case Declined => BothWon(w, s, r) && r.stage == R.Ended(Declined) && W == [] && V == []
    case BadSignature =>
      && W == [] && s.entered == [] && r.entered == []
      && (|| (r.stage == R.Ended(BadSignature) && !w.ReceiverTrusts())
          || (!w.SenderTrusts() && w.ReceiverTrusts() && LeftBehind(w, r.stage)))
    case TooManyAttempts =>
      || (r.stage == R.Ended(TooManyAttempts) && V == [] && LostToReceiver(w, s.entered) && r.entered == [])
      || (&& V == [] && Won(w.receiver.pin, s.entered) && Lost(w.sender.pin, r.entered)
          && match r.stage {
               case AwaitVerdict(buffer) => r.entered != [] && Rest(buffer, W, tooMany)
               case AwaitStatus(buffer) => w.ZeroTries() && Rest(buffer, W, tooMany)
               case Ended(TooManyAttempts) => r.entered != [] && W == []
               case Ended(ProtocolError) => w.ZeroTries() && W == []
               case _ => false
             })
    case _ => false
  }
}
