/** The task of the sending device, as a machine that reacts to one message or one user action at a time.
    A step yields the messages to be put on the data channel, one by one, before the next step. */
module Sending {
  import opened Basics
  import opened Chunking
  import opened Framing
  import opened Handshake
  import opened Model
  import opened PinCheck
  import opened Protocol
  import opened FileLoop
  import Token

  datatype Stage =
    | AwaitNonce
    | AwaitToken(nonce: bytes)
    | EnterPin                     // the user is asked for the receiver's PIN
    | AwaitPinReply
    | AwaitPin(tries: nat)         // the receiver must supply our PIN
    | AwaitSelection(buffer: bytes)
    | NextFile
    | Streaming(buffer: bytes)
    | AwaitLast
    | Pairing
    | Ended(outcome: Outcome)

  /** A file queued by the application, with the octets it supplied for it. */
  datatype Queued = Queued(id: string, data: bytes)

  /** `entered`, `listed`, `queued` and `sent` record what happened so far: the PINs submitted, whether the file list
      went out, the files the application queued, and the files announced to the receiver with their chunks. */
  datatype Task = Task(
    stage: Stage, entered: seq<string>, listed: bool,
    tokens: map<string, string>, queued: seq<Queued>, sent: seq<Delivery>)
  {
    function Send(out: seq<Message>, stage: Stage): Step {
      Step(this.(stage := stage), out)
    }

    function Go(stage: Stage): Step {
      Step(this.(stage := stage), [])
    }

    function End(outcome: Outcome): Step {
      Go(Ended(outcome))
    }
  }

  datatype Step = Step(task: Task, out: seq<Message>)

  datatype Action =
    | Enter(pin: string)
    | Queue(id: string)
    | Data(part: bytes)
    | Eof
    | Close

  function Begin(c: Config): Step {
    Step(Task(AwaitNonce, [], false, map[], [], []), [NonceText(c)])
  }

  function PinReply(c: Config, reply: PinSendingResponse): seq<Message> {
    Framed(c.serde.pinSending.encode(reply))
  }

  function SendList(c: Config, files: seq<FileDto>, t: Task): Step {
    t.(listed := true).Send(PinReply(c, ListOk(files)), AwaitSelection([]))
  }

  /** The verifier's turn, after `tries` PINs, the last of which is `remotePin`. */
  function JudgePin(c: Config, files: seq<FileDto>, t: Task, config: PinConfig, remotePin: string, tries: nat): Step {
    match Judge(config, remotePin, tries)
    case Accept => SendList(c, files, t)
    case Exhausted => t.Send(PinReply(c, ListTooManyAttempts), Ended(TooManyAttempts))
    case AskAgain => t.Send(PinReply(c, ListPinRequired), AwaitPin(tries))
  }

  function Challenge(c: Config, files: seq<FileDto>, t: Task): Step {
    match c.pin
    case None => SendList(c, files, t)
    case Some(config) => JudgePin(c, files, t, config, "", 0)
  }

  predicate Listening(t: Task) {
    t.stage.AwaitNonce? || t.stage.AwaitToken? || t.stage.AwaitPinReply? || t.stage.AwaitPin?
    || t.stage.AwaitSelection? || t.stage.AwaitLast?
  }

  function OnNonce(c: Config, t: Task, msg: Message): Step {
    match ReadNonce(c.serde, msg)
    case None => t.End(ProtocolError)
    case Some(remote) =>
      var nonce := c.nonce + remote;
      t.Send([Text(c.serde.tokenRequest.encode(TokenRequest(OwnToken(c, nonce))))], AwaitToken(nonce))
  }

  function OnToken(c: Config, files: seq<FileDto>, t: Task, nonce: bytes, msg: Message): Step {
    if !msg.isString then t.End(ProtocolError)
    else
      match c.serde.tokenResponse.decode(msg.data)
      case None => t.End(ProtocolError)
      case Some(TokenInvalidSignature) => t.End(BadSignature)
      case Some(response) =>
        match Trust(c, response.token, nonce)
        case Rejected => t.End(BadSignature)
        case Panicked => t.End(Crashed)
        case Accepted =>
          if response.TokenPinRequired? then t.Go(EnterPin) else Challenge(c, files, t)
  }

  function OnPinReply(c: Config, files: seq<FileDto>, t: Task, msg: Message): Step {
    if !msg.isString then t.End(ProtocolError)
    else
      match c.serde.pinReceiving.decode(msg.data)
      case None => t.End(ProtocolError)
      case Some(PinOk) => Challenge(c, files, t)
      case Some(PinRequired) => t.Go(EnterPin)
      case Some(PinTooManyAttempts) => t.End(TooManyAttempts)
  }

  function OnPin(c: Config, files: seq<FileDto>, t: Task, tries: nat, msg: Message): Step {
    match (c.pin, ParsePin(c.serde, msg))
    case (Some(config), Some(pin)) => JudgePin(c, files, t, config, pin, tries + 1)
    case _ => t.End(ProtocolError)
  }

  function OnSelection(c: Config, t: Task, buffer: bytes): Step {
    match c.serde.fileList.decode(buffer)
    case None => t.End(ProtocolError)
    case Some(SelectionOk(tokens)) => t.(tokens := tokens).Go(NextFile)
    case Some(SelectionPair(_)) => t.Go(Pairing)
    case Some(SelectionDeclined) => t.End(Declined)
    case Some(SelectionInvalidSignature) => t.End(ProtocolError)
  }

  function OnMessage(c: Config, files: seq<FileDto>, t: Task, msg: Message): Step
    requires Listening(t)
  {
    match t.stage
    case AwaitNonce => OnNonce(c, t, msg)
    case AwaitToken(nonce) => OnToken(c, files, t, nonce, msg)
    case AwaitPinReply => OnPinReply(c, files, t, msg)
    case AwaitPin(tries) => OnPin(c, files, t, tries, msg)
    case AwaitSelection(buffer) =>
      if msg.isString then OnSelection(c, t, buffer)
      else t.Go(AwaitSelection(buffer + msg.data))
    case AwaitLast => t.End(Finished)
  }

  predicate CanAct(t: Task, a: Action) {
    match a
    case Enter(_) => t.stage.EnterPin?
    case Queue(_) => t.stage.NextFile?
    case Data(_) => t.stage.Streaming?
    case Eof => t.stage.Streaming?
    case Close => t.stage.NextFile?
  }

  function Supply(queued: seq<Queued>, part: bytes): seq<Queued> {
    if queued == [] then []
    else
      var n := |queued| - 1;
      queued[..n] + [queued[n].(data := queued[n].data + part)]
  }

  function Extend(sent: seq<Delivery>, chunks: seq<bytes>): seq<Delivery> {
    if sent == [] then []
    else
      var n := |sent| - 1;
      sent[..n] + [sent[n].(parts := sent[n].parts + chunks)]
  }

  function Announce(c: Config, t: Task, id: string): Step
    requires id in t.tokens
  {
    t.(queued := t.queued + [Queued(id, [])], sent := t.sent + [Delivery(id, [])])
    .Send([Text(c.serde.header.encode(FileHeader(id, t.tokens[id])))], Streaming([]))
  }

  function OnAction(c: Config, t: Task, a: Action): Step
    requires CanAct(t, a)
  {
    match a
    case Enter(pin) =>
      t.(entered := t.entered + [pin]).Send([Text(c.serde.pin.encode(PinMessage(pin)))], AwaitPinReply)
    case Queue(id) =>
      // A file without a token is reported to the application and its octets are never read.
      if id !in t.tokens then t.(queued := t.queued + [Queued(id, [])]).Go(NextFile)
      else Announce(c, t, id)
    case Data(part) =>
      var (full, rest) := Drain(t.stage.buffer + part);
      t.(queued := Supply(t.queued, part), sent := Extend(t.sent, full)).Send(Binaries(full), Streaming(rest))
    case Eof =>
      var buffer := t.stage.buffer;
      if buffer == [] then t.Go(NextFile)
      else t.(sent := Extend(t.sent, [buffer])).Send([Binary(buffer)], NextFile)
    case Close => t.Send([DELIMITER], AwaitLast)
  }
}
